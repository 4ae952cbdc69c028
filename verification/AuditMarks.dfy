/** What the audit log says about rounds, reduced to two kinds of events. */
module AuditMarks {
  /** An accepted update made for a round, a closed round that opened the given one, or neither. */
  datatype Mark = Accept(round: nat) | Aggregate(round: nat) | Other

  function Aggregates(marks: seq<Mark>): nat
  {
    if marks == [] then 0 else Aggregates(marks[..|marks| - 1]) + if marks[|marks| - 1].Aggregate? then 1 else 0
  }

  function Accepts(marks: seq<Mark>, round: int): nat
  {
    if marks == [] then 0
    else Accepts(marks[..|marks| - 1], round) + if marks[|marks| - 1].Accept? && marks[|marks| - 1].round == round then 1 else 0
  }

  /** The mark at `i`, if it closes a round, carries the next round number, and is preceded by a
      quorum of updates accepted for the round it closes. */
  predicate ClosesInOrder(quorum: int, marks: seq<Mark>, first: nat, i: nat)
    requires i < |marks|
  {
    marks[i].Aggregate? ==>
      && marks[i].round == first + Aggregates(marks[..i]) + 1
      && Accepts(marks[..i], marks[i].round - 1) >= quorum
  }

  /** The log agrees with a coordinator that started at round `first`, is now at `round` and has
      `open` updates pending. */
  ghost predicate Agrees(quorum: int, marks: seq<Mark>, first: nat, round: nat, open: nat)
  {
    && first + Aggregates(marks) == round
    && Accepts(marks, round) >= open
    && forall i :: 0 <= i < |marks| ==> ClosesInOrder(quorum, marks, first, i)
  }

  lemma Snoc(marks: seq<Mark>, m: Mark, round: int)
    ensures (marks + [m])[..|marks|] == marks
    ensures Aggregates(marks + [m]) == Aggregates(marks) + if m.Aggregate? then 1 else 0
    ensures Accepts(marks + [m], round) == Accepts(marks, round) + if m.Accept? && m.round == round then 1 else 0
  {
    assert (marks + [m])[..|marks|] == marks;
  }

  lemma SnocCloses(quorum: int, marks: seq<Mark>, m: Mark, first: nat)
    requires forall i :: 0 <= i < |marks| ==> ClosesInOrder(quorum, marks, first, i)
    requires m.Aggregate? ==> m.round == first + Aggregates(marks) + 1 && Accepts(marks, m.round - 1) >= quorum
    ensures forall i :: 0 <= i < |marks + [m]| ==> ClosesInOrder(quorum, marks + [m], first, i)
  {
    var longer := marks + [m];
    forall i | 0 <= i < |longer| ensures ClosesInOrder(quorum, longer, first, i) {
      if i < |marks| {
        assert longer[..i] == marks[..i] && ClosesInOrder(quorum, marks, first, i);
      } else {
        assert longer[..i] == marks;
      }
    }
  }

  /** An event about something else, and possibly fewer pending updates. */
  lemma OtherAgrees(quorum: int, marks: seq<Mark>, first: nat, round: nat, open: nat, fewer: nat)
    requires Agrees(quorum, marks, first, round, open) && fewer <= open
    ensures Agrees(quorum, marks + [Other], first, round, fewer)
  {
    Snoc(marks, Other, round);
    SnocCloses(quorum, marks, Other, first);
  }

  lemma AcceptAgrees(quorum: int, marks: seq<Mark>, first: nat, round: nat, open: nat)
    requires Agrees(quorum, marks, first, round, open)
    ensures Agrees(quorum, marks + [Accept(round)], first, round, open + 1)
  {
    Snoc(marks, Accept(round), round);
    SnocCloses(quorum, marks, Accept(round), first);
  }

  /** The update that completes the quorum is logged together with the closed round. */
  lemma CloseAgrees(quorum: int, marks: seq<Mark>, first: nat, round: nat, open: nat)
    requires Agrees(quorum, marks, first, round, open) && open + 1 >= quorum
    ensures Agrees(quorum, marks + [Accept(round), Aggregate(round + 1)], first, round + 1, 0)
  {
    var accepted := marks + [Accept(round)];
    AcceptAgrees(quorum, marks, first, round, open);
    Snoc(accepted, Aggregate(round + 1), round + 1);
    SnocCloses(quorum, accepted, Aggregate(round + 1), first);
    assert marks + [Accept(round), Aggregate(round + 1)] == accepted + [Aggregate(round + 1)];
  }

  lemma FewerAgree(quorum: int, marks: seq<Mark>, first: nat, round: nat, open: nat, fewer: nat)
    requires Agrees(quorum, marks, first, round, open) && fewer <= open
    ensures Agrees(quorum, marks, first, round, fewer)
  {
  }

  /** A log that is one closed round ahead disagrees. */
  lemma AheadDisagrees(quorum: int, marks: seq<Mark>, first: nat, round: nat, open: nat)
    requires first + Aggregates(marks) == round
    ensures !Agrees(quorum, marks + [Accept(round), Aggregate(round + 1)], first, round, open)
  {
    Snoc(marks, Accept(round), round);
    Snoc(marks + [Accept(round)], Aggregate(round + 1), round);
    assert marks + [Accept(round), Aggregate(round + 1)] == (marks + [Accept(round)]) + [Aggregate(round + 1)];
  }
}
