/** Deduplication of override events: a bounded window over the (session, model) pairs logged. */
module Overrides {
  import opened Options

  const WINDOW: nat := 4096

  /** Offering a pair to the window, oldest first: a pair in it is suppressed; any other is logged
      and enters, pushing out the oldest beyond the bound. */
  function Offer<P(==)>(seen: seq<P>, pair: P): (r: (seq<P>, bool)) {
    if pair in seen then (seen, false)
    else
      var grown := seen + [pair];
      (if |grown| > WINDOW then grown[1..] else grown, true)
  }

  /** The window, and everything logged, after some offers. */
  function SeenAfter<P(==)>(offers: seq<P>): seq<P> {
    if offers == [] then [] else Offer(SeenAfter(offers[..|offers| - 1]), offers[|offers| - 1]).0
  }

  function Logged<P(==)>(offers: seq<P>): seq<P> {
    if offers == [] then []
    else Logged(offers[..|offers| - 1])
         + (if Offer(SeenAfter(offers[..|offers| - 1]), offers[|offers| - 1]).1 then [offers[|offers| - 1]] else [])
  }

  function Latest<P>(log: seq<P>): seq<P> {
    log[|log| - Min(WINDOW, |log|)..]
  }

  /** The window is always exactly the latest entries of the log. */
  lemma {:induction false} WindowIsLatest<P>(offers: seq<P>)
    ensures SeenAfter(offers) == Latest(Logged(offers))
  {
    if offers != [] {
      var init, pair := offers[..|offers| - 1], offers[|offers| - 1];
      WindowIsLatest(init);
      SlideWindow(Logged(init), pair);
    }
  }

  lemma SlideWindow<P>(log: seq<P>, pair: P)
    ensures pair !in Latest(log) ==> Offer(Latest(log), pair) == (Latest(log + [pair]), true)
    ensures pair in Latest(log) ==> Offer(Latest(log), pair) == (Latest(log), false)
  {
    if pair !in Latest(log) {
      var grown := Latest(log) + [pair];
      if |log| >= WINDOW {
        assert grown[1..] == Latest(log + [pair]);
      } else {
        assert Latest(log) == log && grown == log + [pair] && Latest(grown) == grown;
      }
    }
  }

  /** An offer is logged exactly when its pair is not among the latest logged ones. */
  lemma LoggedExactlyWhenForgotten<P>(offers: seq<P>, pair: P)
    ensures Logged(offers + [pair])
            == Logged(offers) + (if pair in Latest(Logged(offers)) then [] else [pair])
  {
    WindowIsLatest(offers);
    SlideWindow(Logged(offers), pair);
    assert (offers + [pair])[..|offers|] == offers;
  }

  predicate Distinct<P(==)>(s: seq<P>) {
    forall i, j :: 0 <= i < j < |s| ==> s[i] != s[j]
  }

  /** Any WINDOW consecutive log entries are distinct, and so is the entry after them. */
  predicate WellSpaced<P(==)>(log: seq<P>) {
    forall i, j :: 0 <= i < j < |log| && j - i <= WINDOW ==> log[i] != log[j]
  }

  lemma {:induction false} LogIsWellSpaced<P>(offers: seq<P>)
    ensures WellSpaced(Logged(offers))
  {
    if offers != [] {
      var init, pair := offers[..|offers| - 1], offers[|offers| - 1];
      LogIsWellSpaced(init);
      LoggedExactlyWhenForgotten(init, pair);
      assert offers == init + [pair];
      var log := Logged(init);
      if pair !in Latest(log) {
        forall i | |log| - Min(WINDOW, |log|) <= i < |log| ensures log[i] != pair {
          assert Latest(log)[i - (|log| - Min(WINDOW, |log|))] == log[i];
        }
      }
    }
  }

  /** Two log entries for one pair have at least WINDOW entries between them, and the last WINDOW
      before the repetition are pairwise distinct and all of other pairs. */
  lemma RepeatsAreFarApart<P>(offers: seq<P>, i: nat, j: nat)
    requires i < j < |Logged(offers)| && Logged(offers)[i] == Logged(offers)[j]
    ensures WINDOW <= j - i - 1
    ensures var between := Logged(offers)[j - WINDOW..j];
            Distinct(between) && Logged(offers)[j] !in between
  {
    LogIsWellSpaced(offers);
  }

  lemma {:induction false} DistinctOffersAreAllLogged<P>(offers: seq<P>)
    requires Distinct(offers)
    ensures Logged(offers) == offers
  {
    if offers != [] {
      var init, pair := offers[..|offers| - 1], offers[|offers| - 1];
      DistinctOffersAreAllLogged(init);
      LoggedExactlyWhenForgotten(init, pair);
      assert offers == init + [pair];
    }
  }

  /** And pairs do repeat: after WINDOW other pairs, the first one is logged a second time. */
  lemma ForgottenPairIsLoggedTwice<P>(offers: seq<P>)
    requires Distinct(offers) && |offers| == 4097
    ensures Logged(offers + [offers[0]]) == offers + [offers[0]]
  {
    DistinctOffersAreAllLogged(offers);
    LoggedExactlyWhenForgotten(offers, offers[0]);
    assert Latest(offers) == offers[1..];
  }
}
