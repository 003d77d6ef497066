/** `InMemoryTransaction`: writes are collected and applied on commit; if one of
    them raises, the ones already applied are undone in reverse order. */
module Transactions {

  /** What running one write does: it raises, or it yields the new state together
      with the function that takes it back. */
  datatype Effect<!S> = Raises | Applied(state: S, undo: S -> S)

  type Write<!S> = S -> Effect<S>

  /** Undo everything in `undos`, last first. */
  function Unwound<S>(s: S, undos: seq<S -> S>): S {
    if undos == [] then s
    else Unwound(undos[|undos| - 1](s), undos[..|undos| - 1])
  }

  /** Commit `writes` from `s`, with `undos` of the writes already applied. */
  function Committed<S>(s: S, writes: seq<Write<S>>, undos: seq<S -> S>): (S, bool) {
    if writes == [] then (s, true)
    else
      match writes[0](s)
      case Raises => (Unwound(s, undos), false)
      case Applied(s', undo) => Committed(s', writes[1..], undos + [undo])
  }

  /** All writes one after the other, where none raises. */
  ghost predicate Runs<S>(s: S, writes: seq<Write<S>>) {
    writes == [] || (writes[0](s).Applied? && Runs(writes[0](s).state, writes[1..]))
  }

  function Outcome<S>(s: S, writes: seq<Write<S>>): S
    requires Runs(s, writes)
  {
    if writes == [] then s else Outcome(writes[0](s).state, writes[1..])
  }

  /** Each undo, run where its write left off, restores the state before it. */
  ghost predicate Undoable<S(!new)>(s: S, writes: seq<Write<S>>) {
    writes == [] ||
    (writes[0](s).Applied? ==>
       && writes[0](s).undo(writes[0](s).state) == s
       && Undoable(writes[0](s).state, writes[1..]))
  }

  lemma {:induction false} CommitFrom<S(!new)>(s: S, writes: seq<Write<S>>, undos: seq<S -> S>, start: S)
    requires Undoable(s, writes) && Unwound(s, undos) == start
    ensures var (end, ok) := Committed(s, writes, undos);
            (ok <==> Runs(s, writes)) && end == if ok then Outcome(s, writes) else start
  {
    if writes != [] && writes[0](s).Applied? {
      var next, undo := writes[0](s).state, writes[0](s).undo;
      assert (undos + [undo])[..|undos|] == undos;
      CommitFrom(next, writes[1..], undos + [undo], start);
    }
  }

  /** All or nothing, wherever in the list a write raises: a commit either applies
      every write or leaves the state exactly as it was. */
  lemma AllOrNothing<S(!new)>(s: S, writes: seq<Write<S>>)
    requires Undoable(s, writes)
    ensures var (end, ok) := Committed(s, writes, []);
            (ok <==> Runs(s, writes)) && end == if ok then Outcome(s, writes) else s
  {
    CommitFrom(s, writes, [], s);
  }

  /** A write in front of a list of writes. */
  lemma Prepended<S(!new)>(s: S, write: Write<S>, rest: seq<Write<S>>)
    requires write(s).Applied? && write(s).undo(write(s).state) == s && Undoable(write(s).state, rest)
    ensures Undoable(s, [write] + rest)
    ensures Runs(s, [write] + rest) <==> Runs(write(s).state, rest)
    ensures Runs(s, [write] + rest) ==> Outcome(s, [write] + rest) == Outcome(write(s).state, rest)
  {
    assert ([write] + rest)[0] == write && ([write] + rest)[1..] == rest;
  }

  lemma {:induction false} CommitThenLast<S(!new)>(s: S, writes: seq<Write<S>>, last: Write<S>, undos: seq<S -> S>,
                                                   start: S)
    requires Undoable(s, writes) && Runs(s, writes) && Unwound(s, undos) == start
    ensures Committed(s, writes + [last], undos)
         == var effect := last(Outcome(s, writes));
            if effect.Applied? then (effect.state, true) else (start, false)
  {
    var all := writes + [last];
    if writes == [] {
      assert all == [last] && all[1..] == [];
    } else {
      assert all[0] == writes[0] && all[1..] == writes[1..] + [last];
      var next, undo := writes[0](s).state, writes[0](s).undo;
      assert (undos + [undo])[..|undos|] == undos;
      CommitThenLast(next, writes[1..], last, undos + [undo], start);
    }
  }

  class InMemoryTransaction<S> {
    var writes: seq<Write<S>>
    var commits: nat

    constructor ()
      ensures writes == [] && commits == 0
    {
      writes, commits := [], 0;
    }

    method Add(write: Write<S>)
      modifies this
      ensures writes == old(writes) + [write] && commits == old(commits)
    {
      writes := writes + [write];
    }

    /** Runs the collected writes on `start`; on an exception runs the undos
        collected so far in reverse and reports failure. */
    method Commit(start: S) returns (end: S, ok: bool)
      modifies this
      ensures (end, ok) == Committed(start, old(writes), [])
      ensures writes == [] && commits == old(commits) + if ok then 1 else 0
    {
      var undos: seq<S -> S> := [];
      var i := 0;
      end, ok := start, true;
      while i < |writes| && ok
        invariant 0 <= i <= |writes|
        invariant ok ==> Committed(start, writes, []) == Committed(end, writes[i..], undos)
        invariant !ok ==> Committed(start, writes, []) == (Unwound(end, undos), false)
        decreases |writes| - i, ok
      {
        match writes[i](end)
        case Raises =>
          ok := false;
        case Applied(next, undo) =>
          assert writes[i..][1..] == writes[i + 1..];
          end, undos, i := next, undos + [undo], i + 1;
      }
      while !ok && |undos| > 0
        invariant !ok ==> Committed(start, writes, []) == (Unwound(end, undos), false)
        invariant ok ==> i == |writes| && Committed(start, writes, []) == Committed(end, writes[i..], undos)
        decreases |undos|
      {
        end := undos[|undos| - 1](end);
        undos := undos[..|undos| - 1];
      }
      writes := [];
      commits := if ok then commits + 1 else commits;
    }
  }
}
