/** The testimonial carousel: an index into five testimonials that an
    autoplay timer advances until the visitor navigates by hand, after which
    autoplay stays off. */
module Testimonials {
  import opened Seqs

  datatype Testimonial = Testimonial(
    id: int,
    name: string,
    location: string,
    avatar: string,
    rating: int,
    text: string,
    date: string,
    verified: bool)

  const All: seq<Testimonial> := [
    Testimonial(1, "Sarah Mwangi", "Nairobi, Kenya", "/images/Managu-600x400.png", 5,
      "Nyakazi Organics has completely transformed my family's meals. The quality of their indigenous vegetables is exceptional - fresh, flavorful, and you can really taste the difference. My kids actually love eating vegetables now!",
      "2 weeks ago", true),
    Testimonial(2, "John Kamau", "Mombasa, Kenya", "/images/Managu-600x400.png", 5,
      "As someone who grew up eating traditional vegetables, I'm thrilled to find authentic, organic options. The dried managu tastes just like what my grandmother used to grow. Fast delivery and excellent packaging!",
      "1 month ago", true),
    Testimonial(3, "Grace Wanjiru", "Kisumu, Kenya", "/images/Managu-600x400.png", 5,
      "I love supporting local farmers while getting nutritious food for my family. The vegetable powders are so convenient - I add them to smoothies and soups. Great value for money and the health benefits are amazing!",
      "3 weeks ago", true),
    Testimonial(4, "Michael Ochieng", "Nakuru, Kenya", "/images/Managu-600x400.png", 4,
      "The quality is consistently good and I appreciate the agroecological farming practices. It's great to know I'm eating healthy while supporting sustainable agriculture in Kenya.",
      "1 month ago", true),
    Testimonial(5, "Esther Njoroge", "Eldoret, Kenya", "/images/Managu-600x400.png", 5,
      "I've been a customer for 6 months now and I'm impressed with the consistency in quality. The mushrooms are my favorite - so flavorful! Customer service is also excellent.",
      "2 months ago", true)
  ]

  // ===========================================================================
  // Index arithmetic
  // ===========================================================================

  /** `testimonials.length`, written out so that the index arithmetic does
      not carry the testimonial texts along. */
  const Count: int := 5

  lemma CountIsLength()
    ensures Count == |All|
  {
  }

  /** The last index wraps to 0, any other index moves up by one. */
  function NextIndex(i: int): int
  {
    if i == Count - 1 then 0 else i + 1
  }

  /** Index 0 wraps to the last index, any other index moves down by one. */
  function PrevIndex(i: int): int
  {
    if i == 0 then Count - 1 else i - 1
  }

  /** Both moves stay inside the list and are arithmetic modulo its length. */
  lemma MovesInRange(i: int)
    requires 0 <= i < Count
    ensures 0 <= NextIndex(i) < Count && NextIndex(i) == (i + 1) % Count
    ensures 0 <= PrevIndex(i) < Count && PrevIndex(i) == (i + Count - 1) % Count
  {
    if i < Count - 1 {
      assert (i + 1) % Count == i + 1;
    }
    if i > 0 {
      assert (i + Count - 1) % Count == i - 1;
    }
  }

  /** Previous undoes next and next undoes previous. */
  lemma MovesInverse(i: int)
    requires 0 <= i < Count
    ensures PrevIndex(NextIndex(i)) == i
    ensures NextIndex(PrevIndex(i)) == i
  {
  }

  // ===========================================================================
  // The carousel as a state machine
  // ===========================================================================

  datatype CarouselState = CarouselState(currentIndex: int, isAutoPlaying: bool)

  /** What can happen: a timer tick, the two arrows, or a dot. */
  datatype Event = Tick | Previous | Next | Slide(index: int)

  const Initial: CarouselState := CarouselState(0, true)

  /** One transition over the list. The tick advances only
      while autoplay is on; every manual move turns autoplay off. */
  function Step(s: CarouselState, e: Event): CarouselState
  {
    match e
    case Tick => if s.isAutoPlaying then s.(currentIndex := NextIndex(s.currentIndex)) else s
    case Previous => CarouselState(PrevIndex(s.currentIndex), false)
    case Next => CarouselState(NextIndex(s.currentIndex), false)
    case Slide(i) => CarouselState(i, false)
  }

  function Run(s: CarouselState, events: seq<Event>): CarouselState
    decreases |events|
  {
    if events == [] then s else Run(Step(s, events[0]), events[1..])
  }

  /** Dots exist only for the indices of the list. */
  predicate ValidEvent(e: Event)
  {
    e.Slide? ==> 0 <= e.index < Count
  }

  predicate InRange(s: CarouselState)
  {
    0 <= s.currentIndex < Count
  }

  /** Every transition keeps the index inside the list. */
  lemma StepInRange(s: CarouselState, e: Event)
    requires InRange(s) && ValidEvent(e)
    ensures InRange(Step(s, e))
  {
    MovesInRange(s.currentIndex);
  }

  /** From the initial state, any run of dot presses, arrows and ticks keeps
      the index in range. */
  lemma {:induction false} RunInRange(s: CarouselState, events: seq<Event>)
    requires InRange(s)
    requires forall k :: 0 <= k < |events| ==> ValidEvent(events[k])
    ensures InRange(Run(s, events))
    decreases |events|
  {
    if events != [] {
      StepInRange(s, events[0]);
      RunInRange(Step(s, events[0]), events[1..]);
    }
  }

  /** Once autoplay is off, nothing turns it back on and ticks change nothing. */
  lemma {:induction false} AutoplayStaysOff(s: CarouselState, events: seq<Event>)
    requires !s.isAutoPlaying
    ensures !Run(s, events).isAutoPlaying
    ensures (forall k :: 0 <= k < |events| ==> events[k] == Tick) ==> Run(s, events) == s
    decreases |events|
  {
    if events != [] {
      AutoplayStaysOff(Step(s, events[0]), events[1..]);
    }
  }

  /** Untouched, the carousel cycles: `k` ticks move it `k` places round, so
      five ticks from any index come back. */
  lemma {:induction false} TicksCycle(s: CarouselState, k: nat)
    requires s.isAutoPlaying && InRange(s)
    ensures Run(s, Ticks(k)) == s.(currentIndex := (s.currentIndex + k) % Count)
    decreases k
  {
    if k == 0 {
      assert s.currentIndex % Count == s.currentIndex;
    } else {
      MovesInRange(s.currentIndex);
      var t := Step(s, Tick);
      assert Ticks(k)[1..] == Ticks(k - 1);
      TicksCycle(t, k - 1);
      assert (t.currentIndex + (k - 1)) % Count == (s.currentIndex + k) % Count by {
        ModShift(s.currentIndex, k);
      }
    }
  }

  /** `((i + 1) % Count + (k - 1)) % Count == (i + k) % Count`. */
  lemma ModShift(i: int, k: nat)
    requires 0 <= i < Count && k >= 1
    ensures ((i + 1) % Count + (k - 1)) % Count == (i + k) % Count
  {
    if i + 1 == Count {
      assert (i + 1) % Count == 0;
      assert (i + k) == Count + (k - 1);
    } else {
      assert (i + 1) % Count == i + 1;
    }
  }

  function Ticks(k: nat): (r: seq<Event>)
    ensures |r| == k && forall j :: 0 <= j < k ==> r[j] == Tick
  {
    if k == 0 then [] else [Tick] + Ticks(k - 1)
  }

  // ===========================================================================
  // The component's state
  // ===========================================================================

  class Carousel {
    var currentIndex: int
    var isAutoPlaying: bool

    function State(): CarouselState
      reads this
    {
      CarouselState(currentIndex, isAutoPlaying)
    }

    ghost predicate Valid()
      reads this
    {
      InRange(State())
    }

    /** The first testimonial, with autoplay on. */
    constructor ()
      ensures State() == Initial && Valid()
    {
      currentIndex, isAutoPlaying := 0, true;
    }

    /** The interval callback; it is scheduled only while autoplay is on. */
    method OnTick()
      requires Valid()
      modifies this
      ensures Valid() && State() == Step(old(State()), Tick)
    {
      if isAutoPlaying {
        MovesInRange(currentIndex);
        currentIndex := if currentIndex == Count - 1 then 0 else currentIndex + 1;
      }
    }

    method GoToPrevious()
      requires Valid()
      modifies this
      ensures Valid() && State() == Step(old(State()), Previous)
    {
      MovesInRange(currentIndex);
      isAutoPlaying := false;
      currentIndex := if currentIndex == 0 then Count - 1 else currentIndex - 1;
    }

    method GoToNext()
      requires Valid()
      modifies this
      ensures Valid() && State() == Step(old(State()), Next)
    {
      MovesInRange(currentIndex);
      isAutoPlaying := false;
      currentIndex := if currentIndex == Count - 1 then 0 else currentIndex + 1;
    }

    /** Called by the dot for `index`, one dot per testimonial. */
    method GoToSlide(index: int)
      requires Valid() && 0 <= index < Count
      modifies this
      ensures Valid() && State() == Step(old(State()), Slide(index))
    {
      isAutoPlaying := false;
      currentIndex := index;
    }
  }

  /** Going forward then back returns to the first testimonial, with
      autoplay now off, and later ticks leave it there. */
  method ForwardAndBack() returns (index: int, autoPlaying: bool)
    ensures index == 0 && !autoPlaying
  {
    var c := new Carousel();
    c.GoToNext();
    c.GoToPrevious();
    c.OnTick();
    index, autoPlaying := c.currentIndex, c.isAutoPlaying;
  }

  // ===========================================================================
  // The grid under the carousel
  // ===========================================================================

  /** `testimonials.slice(1, 4)`. */
  function Grid(): seq<Testimonial>
  {
    Slice(All, 1, 4)
  }

  /** The grid shows the second, third and fourth testimonials, in order. */
  lemma GridShowsTwoToFour()
    ensures |Grid()| == 3
    ensures forall k :: 0 <= k < |Grid()| ==> Grid()[k] == All[k + 1] && Grid()[k].id == k + 2
  {
  }
}
