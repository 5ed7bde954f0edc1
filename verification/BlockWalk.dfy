/**
 Walking a block backwards while statements are inserted into it: each statement of the block is
 visited once, no inserted one is, and the result is the lifted block.
 */
module BlockWalk {
  import opened ControlExpressions
  import opened Lifting

  /** A slot of the block: a statement still as written, told apart by its identity, or a finished one. */
  datatype Node = Written(id: nat, s: Stmt) | Finished(t: TStmt)

  function WrittenAll(ss: seq<Stmt>): seq<Node> {
    seq(|ss|, i requires 0 <= i < |ss| => Written(i, ss[i]))
  }

  function FinishedAll(ts: seq<TStmt>): seq<Node> {
    seq(|ts|, i requires 0 <= i < |ts| => Finished(ts[i]))
  }

  /** A statement's code ends with what became of the statement. */
  lemma LiftedNotEmpty(s: Stmt, k: nat)
    ensures LiftS(s, k).code != []
  {
  }

  /** Lifting the last statement first puts the first statement's code in front in the end. */
  lemma {:induction false} LiftAllHead(x: Stmt, rest: seq<Stmt>, k: nat)
    ensures var r := LiftAll(rest, k);
            var l := LiftS(x, r.next);
            LiftAll([x] + rest, k) == LiftedS(l.code + r.code, l.next)
    decreases |rest|
  {
    hide LiftS;
    var all := [x] + rest;
    if rest == [] {
      assert all == [x] && all[..0] == [];
      assert LiftAll([], LiftS(x, k).next) == LiftedS([], LiftS(x, k).next);
      assert LiftS(x, k).code + [] == LiftS(x, k).code && [] + LiftS(x, k).code == LiftS(x, k).code;
    } else {
      var init, y := rest[..|rest| - 1], rest[|rest| - 1];
      assert all[|all| - 1] == y && all[..|all| - 1] == [x] + init;
      var last := LiftS(y, k);
      LiftAllHead(x, init, last.next);
      var ri := LiftAll(init, last.next);
      var l := LiftS(x, ri.next);
      assert l.code + (ri.code + last.code) == l.code + ri.code + last.code;
    }
  }

  class Block {
    var statements: seq<Node>
    var counter: nat
    ghost var visited: seq<nat>

    constructor (ss: seq<Stmt>, k: nat)
      ensures statements == WrittenAll(ss) && counter == k && visited == []
    {
      statements := seq(|ss|, i requires 0 <= i < |ss| => Written(i, ss[i]));
      counter, visited := k, [];
    }

    method FindStatementIndex(id: nat) returns (index: int)
      ensures index == -1 ==> forall i :: 0 <= i < |statements| ==> !(statements[i].Written? && statements[i].id == id)
      ensures index != -1 ==>
                0 <= index < |statements| && statements[index].Written? && statements[index].id == id
                && forall i :: 0 <= i < index ==> !(statements[i].Written? && statements[i].id == id)
    {
      var i := 0;
      while i < |statements|
        invariant 0 <= i <= |statements|
        invariant forall j :: 0 <= j < i ==> !(statements[j].Written? && statements[j].id == id)
      {
        if statements[i].Written? && statements[i].id == id {
          return i;
        }
        i := i + 1;
      }
      return -1;
    }

    method Insert(index: nat, n: Node)
      requires index <= |statements|
      modifies this`statements
      ensures statements == old(statements[..index]) + [n] + old(statements[index..])
    {
      statements := statements[..index] + [n] + statements[index..];
    }

    /** Lifts the statement in slot `i`: its code goes in front of it, the slot keeps what is left of it. */
    method Visit(i: nat)
      requires i < |statements| && statements[i].Written?
      requires forall j :: 0 <= j < i ==> statements[j].Written? ==> statements[j].id != statements[i].id
      modifies this
      ensures var l := LiftS(old(statements[i].s), old(counter));
              counter == l.next && statements == old(statements[..i]) + FinishedAll(l.code) + old(statements[i + 1..])
      ensures visited == old(visited) + [old(statements[i].id)]
    {
      hide LiftS;
      var id, s := statements[i].id, statements[i].s;
      ghost var before, after := statements[..i], statements[i + 1..];
      visited := visited + [id];
      LiftedNotEmpty(s, counter);
      var l := LiftS(s, counter);
      counter := l.next;
      var frags, rest := l.code[..|l.code| - 1], l.code[|l.code| - 1];
      var index := FindStatementIndex(id);
      assert index == i;
      var j := 0;
      while j < |frags|
        invariant 0 <= j <= |frags|
        invariant statements == before + FinishedAll(frags[..j]) + [Written(id, s)] + after
        invariant counter == l.next && visited == old(visited) + [id]
      {
        Insert(index + j, Finished(frags[j]));
        assert FinishedAll(frags[..j + 1]) == FinishedAll(frags[..j]) + [Finished(frags[j])];
        j := j + 1;
      }
      assert frags[..j] == frags;
      statements := statements[index + j := Finished(rest)];
      assert FinishedAll(l.code) == FinishedAll(frags) + [Finished(rest)];
    }
  }

  /** The whole walk. */
  method LiftBlock(ss: seq<Stmt>, k: nat) returns (block: Block)
    ensures fresh(block)
    ensures block.statements == FinishedAll(LiftAll(ss, k).code) && block.counter == LiftAll(ss, k).next
    ensures block.visited == seq(|ss|, i requires 0 <= i < |ss| => |ss| - 1 - i)
  {
    hide LiftS, LiftAll;
    block := new Block(ss, k);
    var i := |ss|;
    NothingYet(ss, k);
    while i > 0
      invariant 0 <= i <= |ss| && fresh(block)
      invariant block.statements == WrittenAll(ss)[..i] + FinishedAll(LiftAll(ss[i..], k).code)
      invariant block.counter == LiftAll(ss[i..], k).next
      invariant block.visited == seq(|ss| - i, j requires 0 <= j < |ss| - i => |ss| - 1 - j)
    {
      i := i - 1;
      ghost var done := LiftAll(ss[i + 1..], k);
      assert block.statements[i] == Written(i, ss[i]);
      block.Visit(i);
      LiftAllHead(ss[i], ss[i + 1..], k);
      assert ss[i..] == [ss[i]] + ss[i + 1..];
      ghost var l := LiftS(ss[i], done.next);
      assert FinishedAll(l.code + done.code) == FinishedAll(l.code) + FinishedAll(done.code);
    }
    assert ss[0..] == ss;
  }

  lemma NothingYet(ss: seq<Stmt>, k: nat)
    ensures LiftAll(ss[|ss|..], k) == LiftedS([], k)
    ensures WrittenAll(ss)[..|ss|] + FinishedAll([]) == WrittenAll(ss)
  {
  }
}
