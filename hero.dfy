/** The hero banner's rotating quote: an index into three short
    testimonials, advanced modulo three by a timer that never stops. */
module Hero {

  datatype Quote = Quote(name: string, location: string, text: string, rating: int)

  const Quotes: seq<Quote> := [
    Quote("Sarah M.", "Nairobi",
          "These indigenous vegetables have transformed my family's health. The quality is exceptional!", 5),
    Quote("John K.", "Mombasa",
          "Finally, authentic traditional vegetables that remind me of my grandmother's cooking.", 5),
    Quote("Grace W.", "Kisumu",
          "I love supporting local farmers while getting nutritious food for my children.", 5)
  ]

  /** `testimonials.length`. */
  const Count: int := |Quotes|

  /** One tick: `(prev + 1) % testimonials.length`. The index is never
      negative, so the remainder agrees with JavaScript's `%`. */
  function Advance(i: int): int
  {
    (i + 1) % Count
  }

  /** `k` ticks in a row. */
  function AdvanceBy(i: int, k: nat): int
    decreases k
  {
    if k == 0 then i else AdvanceBy(Advance(i), k - 1)
  }

  /** A tick stays in range: from the last index it wraps to 0, otherwise it
      moves up by one. */
  lemma AdvanceInRange(i: int)
    requires 0 <= i < Count
    ensures 0 <= Advance(i) < Count
    ensures Advance(i) == if i == Count - 1 then 0 else i + 1
  {
  }

  /** `k` ticks from an index in range land `k` places round. */
  lemma {:induction false} AdvanceByMod(i: int, k: nat)
    requires 0 <= i < Count
    ensures AdvanceBy(i, k) == (i + k) % Count
    decreases k
  {
    if k > 0 {
      AdvanceInRange(i);
      AdvanceByMod(Advance(i), k - 1);
      assert (Advance(i) + (k - 1)) % Count == (i + k) % Count by {
        if i == Count - 1 {
          assert i + k == Count + (k - 1);
        }
      }
    }
  }

  /** Three ticks bring the banner back to the quote it showed. */
  lemma ThreeTicksReturn(i: int)
    requires 0 <= i < Count
    ensures AdvanceBy(i, 3) == i
  {
    AdvanceByMod(i, 3);
  }

  class Banner {
    var currentTestimonial: int

    ghost predicate Valid()
      reads this
    {
      0 <= currentTestimonial < Count
    }

    constructor ()
      ensures Valid() && currentTestimonial == 0
    {
      currentTestimonial := 0;
    }

    /** The interval callback. */
    method OnTick()
      requires Valid()
      modifies this
      ensures Valid() && currentTestimonial == Advance(old(currentTestimonial))
    {
      AdvanceInRange(currentTestimonial);
      currentTestimonial := (currentTestimonial + 1) % Count;
    }

    /** `testimonials[currentTestimonial]`: always one of the three quotes. */
    function Shown(): (q: Quote)
      reads this
      requires Valid()
      ensures q in Quotes
    {
      Quotes[currentTestimonial]
    }
  }

  /** After three ticks the banner shows the first quote again. */
  method ThreeTicks() returns (shown: Quote)
    ensures shown == Quotes[0]
  {
    var b := new Banner();
    b.OnTick();
    b.OnTick();
    b.OnTick();
    shown := b.Shown();
  }
}
