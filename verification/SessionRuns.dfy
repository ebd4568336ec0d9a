/** Runs of the machine, one after the other. */
module SessionRuns {
  import opened SessionModel

  lemma {:induction false} AfterConcat(s: State, a: seq<Event>, b: seq<Event>)
    ensures After(s, a + b) == After(After(s, a), b)
  {
    hide Step;
    if b == [] {
      assert a + b == a;
    } else {
      assert (a + b)[..|a + b| - 1] == a + b[..|b| - 1];
      AfterConcat(s, a, b[..|b| - 1]);
    }
  }

  lemma {:induction false} LegalConcat(s: State, a: seq<Event>, b: seq<Event>)
    ensures Legal(s, a + b) <==> Legal(s, a) && Legal(After(s, a), b)
  {
    hide Step, Enabled;
    if b == [] {
      assert a + b == a;
    } else {
      assert (a + b)[..|a + b| - 1] == a + b[..|b| - 1];
      AfterConcat(s, a, b[..|b| - 1]);
      LegalConcat(s, a, b[..|b| - 1]);
    }
  }
}
