/**
 * The home page's own state: the section the scroll position is in (which
 * decides which canvas sequence is visible), the emerald carousel, the
 * pixie-dust particle buffer fed by a throttled global mouse handler, and
 * the carousel section's parallax input.
 */
module HomePage {
  import opened RealArith

  /** `carouselImages.length`. */
  const CarouselLength: int := 5
  /** `prev.slice(-20)`: the particles kept before one is appended. */
  const ParticlesKept: nat := 20
  /** Minimum milliseconds between two particles. */
  const ThrottleMs: int := 50

  // ---- Sections and visibility ----

  /** `Math.floor(scrollTop / windowHeight)`: the viewport-height band the page is scrolled into. */
  function Section(scrollTop: real, windowHeight: real): (section: int)
    requires windowHeight > 0.0
    ensures section as real * windowHeight <= scrollTop < (section + 1) as real * windowHeight
  {
    FloorBand(scrollTop, windowHeight);
    (scrollTop / windowHeight).Floor
  }

  /** The first canvas sequence is opaque in sections 0 and 1. */
  predicate Scene1Visible(section: int) {
    section >= 0 && section < 2
  }

  /** The second canvas sequence is opaque in sections 2 to 4. */
  predicate Scene2Visible(section: int) {
    section >= 2 && section <= 4
  }

  /** The two sequences are never opaque together. */
  lemma ScenesExclusive(section: int)
    ensures !(Scene1Visible(section) && Scene2Visible(section))
  {
  }

  /** The section is at least `k` exactly when the page is scrolled at least `k` viewport heights. */
  lemma SectionAtLeast(scrollTop: real, windowHeight: real, k: int)
    requires windowHeight > 0.0
    ensures Section(scrollTop, windowHeight) >= k <==> scrollTop >= k as real * windowHeight
  {
    BandAtLeast(scrollTop, windowHeight, Section(scrollTop, windowHeight), k);
  }

  /** In scroll terms: the first sequence shows over the first two viewport heights, the second over the next three. */
  lemma SceneVisibilityByScroll(scrollTop: real, windowHeight: real)
    requires windowHeight > 0.0
    ensures Scene1Visible(Section(scrollTop, windowHeight)) <==> 0.0 <= scrollTop < 2.0 * windowHeight
    ensures Scene2Visible(Section(scrollTop, windowHeight)) <==> 2.0 * windowHeight <= scrollTop < 5.0 * windowHeight
  {
    SectionAtLeast(scrollTop, windowHeight, 0);
    SectionAtLeast(scrollTop, windowHeight, 2);
    SectionAtLeast(scrollTop, windowHeight, 5);
  }

  // ---- Carousel ----

  /** `nextImage`: forward one image, wrapping from the last to the first. */
  function NextIndex(index: int): (next: int)
    ensures 0 <= index < CarouselLength ==> 0 <= next < CarouselLength && next == (index + 1) % CarouselLength
  {
    if index == CarouselLength - 1 then 0 else index + 1
  }

  /** `prevImage`: back one image, wrapping from the first to the last. */
  function PrevIndex(index: int): (prev: int)
    ensures 0 <= index < CarouselLength ==> 0 <= prev < CarouselLength && (prev + 1) % CarouselLength == index
  {
    if index == 0 then CarouselLength - 1 else index - 1
  }

  /** Back after forward, and forward after back, return to the same image. */
  lemma NextPrevInverse(index: int)
    requires 0 <= index < CarouselLength
    ensures PrevIndex(NextIndex(index)) == index
    ensures NextIndex(PrevIndex(index)) == index
  {
  }

  // ---- Particles ----

  /** A pixie-dust particle: its id and where it was spawned (size, velocity and colour are random and left out). */
  datatype Particle = Particle(id: real, x: real, y: real)

  /** `s.slice(-n)`: the last `n` elements, or all of them when there are fewer. */
  function KeepLast(s: seq<Particle>, n: nat): (r: seq<Particle>)
    ensures |r| == if |s| < n then |s| else n
    ensures s == s[..|s| - |r|] + r
  {
    if |s| <= n then s else s[|s| - n..]
  }

  /** `[...prev.slice(-20), particle]`. */
  function AddParticle(particles: seq<Particle>, p: Particle): (r: seq<Particle>)
    ensures 1 <= |r| <= ParticlesKept + 1 && r[|r| - 1] == p
    ensures |r| - 1 == if |particles| < ParticlesKept then |particles| else ParticlesKept
    ensures r[..|r| - 1] == particles[|particles| - (|r| - 1)..]
  {
    KeepLast(particles, ParticlesKept) + [p]
  }

  /** `prev.filter(p => p.id !== id)`. */
  function RemoveParticle(particles: seq<Particle>, id: real): (r: seq<Particle>)
    ensures |r| <= |particles|
    ensures forall k :: 0 <= k < |r| ==> r[k].id != id
    ensures forall k :: 0 <= k < |r| ==> r[k] in particles
    ensures forall k :: 0 <= k < |particles| && particles[k].id != id ==> particles[k] in r
  {
    if particles == [] then []
    else if particles[0].id != id then [particles[0]] + RemoveParticle(particles[1..], id)
    else RemoveParticle(particles[1..], id)
  }

  /** Removal works piecewise over a split buffer, so the particles kept stay in their order. */
  lemma {:induction false} RemoveParticleDistributes(a: seq<Particle>, b: seq<Particle>, id: real)
    ensures RemoveParticle(a + b, id) == RemoveParticle(a, id) + RemoveParticle(b, id)
    decreases |a|
  {
    if a != [] {
      assert (a + b)[0] == a[0];
      assert (a + b)[1..] == a[1..] + b;
      RemoveParticleDistributes(a[1..], b, id);
      var head := if a[0].id != id then [a[0]] else [];
      assert RemoveParticle(a, id) == head + RemoveParticle(a[1..], id);
      assert RemoveParticle(a + b, id) == head + RemoveParticle(a[1..] + b, id);
    } else {
      assert a + b == b;
    }
  }

  /** Removing an id no particle has leaves the buffer as it was. */
  lemma {:induction false} RemoveAbsentParticle(particles: seq<Particle>, id: real)
    requires forall k :: 0 <= k < |particles| ==> particles[k].id != id
    ensures RemoveParticle(particles, id) == particles
    decreases |particles|
  {
    if particles != [] {
      RemoveAbsentParticle(particles[1..], id);
    }
  }

  /** The particle times a throttled handler accepts from `times`, given the last accepted time. */
  function AcceptedTimes(times: seq<int>, lastTime: int): (accepted: seq<int>)
    ensures |accepted| <= |times|
    decreases |times|
  {
    if times == [] then []
    else if times[0] - lastTime > ThrottleMs then [times[0]] + AcceptedTimes(times[1..], times[0])
    else AcceptedTimes(times[1..], lastTime)
  }

  /** Accepted times come from the events and are more than 50 ms apart, the first more than 50 ms after `lastTime`. */
  lemma {:induction false} AcceptedTimesSpaced(times: seq<int>, lastTime: int)
    ensures var a := AcceptedTimes(times, lastTime);
            (forall k :: 0 <= k < |a| ==> a[k] in times) &&
            (|a| > 0 ==> a[0] - lastTime > ThrottleMs) &&
            (forall k :: 0 <= k < |a| - 1 ==> a[k + 1] - a[k] > ThrottleMs)
    decreases |times|
  {
    if times != [] {
      if times[0] - lastTime > ThrottleMs {
        AcceptedTimesSpaced(times[1..], times[0]);
      } else {
        AcceptedTimesSpaced(times[1..], lastTime);
      }
    }
  }

  /** The handler's `lastTime` after accepting `accepted`, starting from `lastTime`. */
  function LastAccepted(accepted: seq<int>, lastTime: int): int {
    if accepted == [] then lastTime else accepted[|accepted| - 1]
  }

  /**
   * One more event: it is accepted exactly when it comes more than 50 ms
   * after the last accepted time, and the earlier acceptances are unchanged.
   */
  lemma {:induction false} AcceptedTimesSnoc(times: seq<int>, lastTime: int, t: int)
    ensures AcceptedTimes(times + [t], lastTime) ==
            AcceptedTimes(times, lastTime) +
            (if t - LastAccepted(AcceptedTimes(times, lastTime), lastTime) > ThrottleMs then [t] else [])
    decreases |times|
  {
    if times == [] {
      assert [] + [t] == [t];
      assert [t][1..] == [];
    } else {
      assert (times + [t])[0] == times[0];
      assert (times + [t])[1..] == times[1..] + [t];
      if times[0] - lastTime > ThrottleMs {
        AcceptedTimesSnoc(times[1..], times[0], t);
        var rest := AcceptedTimes(times[1..], times[0]);
        assert LastAccepted([times[0]] + rest, lastTime) == LastAccepted(rest, times[0]);
      } else {
        AcceptedTimesSnoc(times[1..], lastTime, t);
      }
    }
  }

  // ---- Carousel parallax ----

  /** `(clientX - rect.left - rect.width / 2) / rect.width`: the offset from the section's centre as a fraction of its size. */
  function CentreOffset(client: real, start: real, extent: real): (v: real)
    requires extent > 0.0
    ensures start <= client <= start + extent <==> -0.5 <= v <= 0.5
    ensures start + extent / 2.0 + v * extent == client
  {
    var v := (client - start - extent / 2.0) / extent;
    assert v * extent == client - start - extent / 2.0;
    ScaledBounds(v, extent, client - start - extent / 2.0, -0.5, 0.5);
    v
  }

  datatype Point = Point(x: real, y: real)

  /** The page's state. */
  class Home {
    var currentSection: int
    var currentImageIndex: int
    /** 1 after `nextImage`, -1 after `prevImage`, 0 before either. */
    var direction: int
    var particles: seq<Particle>
    var mousePosition: Point
    /** The global mouse handler's `lastTime`. */
    var lastTime: int
    /** The `mouseX`/`mouseY` motion values fed to the carousel parallax. */
    var parallax: Point
    /** The times of every global `mousemove` so far, and the times a particle was spawned. */
    ghost var eventTimes: seq<int>
    ghost var spawnTimes: seq<int>

    ghost predicate Valid()
      reads this
    {
      && 0 <= currentImageIndex < CarouselLength
      && -1 <= direction <= 1
      && |particles| <= ParticlesKept + 1
    }

    /** The throttle's history: `lastTime` is the last spawn time, and the spawns are the events the throttle accepts. */
    ghost predicate ThrottleHistory()
      reads this`eventTimes, this`spawnTimes, this`lastTime
    {
      && spawnTimes == AcceptedTimes(eventTimes, 0)
      && lastTime == LastAccepted(spawnTimes, 0)
    }

    constructor ()
      ensures Valid() && ThrottleHistory()
      ensures currentSection == 0 && currentImageIndex == 0 && direction == 0
      ensures particles == [] && mousePosition == Point(0.0, 0.0) && lastTime == 0 && parallax == Point(0.0, 0.0)
      ensures eventTimes == [] && spawnTimes == []
    {
      currentSection := 0;
      currentImageIndex := 0;
      direction := 0;
      particles := [];
      mousePosition := Point(0.0, 0.0);
      lastTime := 0;
      parallax := Point(0.0, 0.0);
      eventTimes := [];
      spawnTimes := [];
    }

    method HandleScroll(scrollTop: real, windowHeight: real)
      requires Valid() && windowHeight > 0.0
      modifies this`currentSection
      ensures Valid()
      ensures currentSection == Section(scrollTop, windowHeight)
    {
      currentSection := Section(scrollTop, windowHeight);
    }

    method NextImage()
      requires Valid()
      modifies this`direction, this`currentImageIndex
      ensures Valid()
      ensures direction == 1 && currentImageIndex == NextIndex(old(currentImageIndex))
    {
      direction := 1;
      currentImageIndex := NextIndex(currentImageIndex);
    }

    method PrevImage()
      requires Valid()
      modifies this`direction, this`currentImageIndex
      ensures Valid()
      ensures direction == -1 && currentImageIndex == PrevIndex(old(currentImageIndex))
    {
      direction := -1;
      currentImageIndex := PrevIndex(currentImageIndex);
    }

    /** `createParticle`, with the random id given. */
    method CreateParticle(id: real, x: real, y: real)
      requires Valid()
      modifies this`particles
      ensures Valid()
      ensures particles == AddParticle(old(particles), Particle(id, x, y))
    {
      particles := AddParticle(particles, Particle(id, x, y));
    }

    /** The 2 s timeout of a particle: every particle with its id goes. */
    method ExpireParticle(id: real)
      requires Valid()
      modifies this`particles
      ensures Valid()
      ensures particles == RemoveParticle(old(particles), id)
    {
      particles := RemoveParticle(particles, id);
    }

    /**
     * The global `mousemove` handler at time `now` (`Date.now()`): the cursor
     * follows every event; a particle is spawned, and `lastTime` moved, only
     * more than 50 ms after the last one.
     */
    method GlobalMouseMove(now: int, clientX: real, clientY: real, id: real)
      requires Valid() && ThrottleHistory()
      modifies this`mousePosition, this`particles, this`lastTime, this`eventTimes, this`spawnTimes
      ensures Valid() && ThrottleHistory()
      ensures mousePosition == Point(clientX, clientY)
      ensures now - old(lastTime) > ThrottleMs ==>
                particles == AddParticle(old(particles), Particle(id, clientX, clientY)) && lastTime == now
      ensures now - old(lastTime) <= ThrottleMs ==> particles == old(particles) && lastTime == old(lastTime)
      ensures eventTimes == old(eventTimes) + [now]
    {
      RecordEvent(now);
      mousePosition := Point(clientX, clientY);
      if now - lastTime > ThrottleMs {
        CreateParticle(id, clientX, clientY);
        lastTime := now;
      }
    }

    /** Appends an event at `now` to the history; it is a spawn exactly when the throttle accepts it. */
    ghost method RecordEvent(now: int)
      requires ThrottleHistory()
      modifies this`eventTimes, this`spawnTimes
      ensures eventTimes == old(eventTimes) + [now]
      ensures spawnTimes == AcceptedTimes(eventTimes, 0)
      ensures LastAccepted(spawnTimes, 0) == if now - lastTime > ThrottleMs then now else lastTime
    {
      AcceptedTimesSnoc(eventTimes, 0, now);
      if now - lastTime > ThrottleMs {
        spawnTimes := spawnTimes + [now];
      }
      eventTimes := eventTimes + [now];
    }

    /** The carousel section's `mousemove`, against the section's bounding box. */
    method ParallaxMove(clientX: real, clientY: real, left: real, top: real, width: real, height: real)
      requires Valid() && width > 0.0 && height > 0.0
      modifies this`parallax
      ensures Valid()
      ensures parallax == Point(CentreOffset(clientX, left, width), CentreOffset(clientY, top, height))
    {
      parallax := Point(CentreOffset(clientX, left, width), CentreOffset(clientY, top, height));
    }

    method ParallaxLeave()
      requires Valid()
      modifies this`parallax
      ensures Valid() && parallax == Point(0.0, 0.0)
    {
      parallax := Point(0.0, 0.0);
    }
  }
}
