/** Check statuses, their severity order and the two ways the engine combines
    them: the maximum-severity fold (`Worst`) and the loop with an early
    `break` that both `run_health_check` versions run (`FoldOverall`), which
    yields the same status. */
module Statuses {

  /** "healthy", "skipped", "warning", "error". */
  datatype Status = Healthy | Skipped | Warning | Error

  /** Severity order: `Skipped` carries the severity of `Healthy`. */
  function Severity(s: Status): nat
  {
    match s
    case Healthy => 0
    case Skipped => 0
    case Warning => 1
    case Error => 2
  }

  /** One step of the maximum fold. On a tie the accumulated status stays, so
      `Skipped` never replaces it. */
  function Higher(acc: Status, s: Status): Status
  {
    if Severity(s) > Severity(acc) then s else acc
  }

  /** The overall status of a sequence of check statuses: start from healthy
      and keep the status of highest severity seen. */
  function Worst(ss: seq<Status>): (r: Status)
    ensures r != Skipped
  {
    if ss == [] then Healthy else Higher(Worst(ss[..|ss| - 1]), ss[|ss| - 1])
  }

  /** The fold is error iff some status is error, else warning iff some status
      is warning, else healthy. */
  lemma {:induction false} WorstIs(ss: seq<Status>)
    ensures Worst(ss) == if Error in ss then Error else if Warning in ss then Warning else Healthy
  {
    if ss != [] {
      var init := ss[..|ss| - 1];
      WorstIs(init);
      assert ss == init + [ss[|ss| - 1]];
    }
  }

  /** The fold is the maximum: no status is more severe than it, and it is
      healthy or one of the statuses. */
  lemma WorstIsMaximum(ss: seq<Status>)
    ensures forall i :: 0 <= i < |ss| ==> Severity(ss[i]) <= Severity(Worst(ss))
    ensures Worst(ss) == Healthy || Worst(ss) in ss
  {
    WorstIs(ss);
  }

  /** The order of the checks does not matter to the fold. */
  lemma WorstOrderIndependent(a: seq<Status>, b: seq<Status>)
    requires multiset(a) == multiset(b)
    ensures Worst(a) == Worst(b)
  {
    WorstIs(a);
    WorstIs(b);
    assert Error in a <==> Error in multiset(a);
    assert Error in b <==> Error in multiset(b);
    assert Warning in a <==> Warning in multiset(a);
    assert Warning in b <==> Warning in multiset(b);
  }

  /** A skipped check never changes the overall status. */
  lemma SkippedIsNeutral(a: seq<Status>, b: seq<Status>)
    ensures Worst(a + [Skipped] + b) == Worst(a + b)
  {
    WorstIs(a + [Skipped] + b);
    WorstIs(a + b);
    assert forall s :: s != Skipped ==> (s in a + [Skipped] + b <==> s in a + b);
  }

  /** The loop that ends `run_health_check`: walk the check statuses in
      order; the first error sets the overall status to error and stops the
      walk; a warning sets it to warning unless it is already error. */
  method FoldOverall(initial: Status, ss: seq<Status>) returns (overall: Status)
    requires initial == Healthy || initial == Warning
    ensures Error in ss ==> overall == Error
    ensures Error !in ss && Warning in ss ==> overall == Warning
    ensures Error !in ss && Warning !in ss ==> overall == initial
  {
    overall := initial;
    var i := 0;
    while i < |ss|
      invariant 0 <= i <= |ss|
      invariant Error !in ss[..i]
      invariant overall == if Warning in ss[..i] then Warning else initial
    {
      if ss[i] == Error {
        overall := Error;
        break;
      } else if ss[i] == Warning && overall != Error {
        overall := Warning;
      }
      assert ss[..i + 1] == ss[..i] + [ss[i]];
      i := i + 1;
    }
    if overall != Error {
      assert ss[..i] == ss;
    }
  }
}
