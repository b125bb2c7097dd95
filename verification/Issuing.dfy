/** Which ids and requests a task issues: a deterministic sequence that every attempt repeats. */
module Issuing {
  import opened Wrappers
  import opened Store
  import opened Programs
  import opened PromiseIds
  import opened Workflow

  /** The group at this history issues the child with this fingerprint. */
  ghost predicate IssuesAt(lib: Library, p: Parent, history: History, child: Id, key: Fingerprint) {
    && ValidHistory(lib, p.work, history)
    && match lib(p.work, history)
       case Gather(calls) => exists k :: CallAt(lib, p, history, calls, k, child, key)
       case Sleep(delayMs) =>
         && delayMs > 0 && child == TimerId(p.id, Issued(lib, p.work, history))
         && key.TimerKey? && key == TimerKey(child, key.dueAt, None, Some(p.graph))
       case _ => false
  }

  ghost predicate CallAt(lib: Library, p: Parent, history: History, calls: seq<Call>, k: int, child: Id,
                         key: Fingerprint)
  {
    && 0 <= k < |calls|
    && child == CallId(p.id, Issued(lib, p.work, history), k, calls[k])
    && key == ChildKey(p, Issued(lib, p.work, history), k, calls[k])
  }

  /** Some group of the task issues the child with this fingerprint. */
  ghost predicate IssuedBy(lib: Library, p: Parent, child: Id, key: Fingerprint) {
    exists history :: IssuesAt(lib, p, history, child, key)
  }

  lemma {:induction false} IssuedPrefix(lib: Library, work: Work, history: History, k: nat)
    requires k < |history|
    ensures Issued(lib, work, history[..k]) + Width(lib(work, history[..k])) <= Issued(lib, work, history)
  {
    var past := history[..|history| - 1];
    if k < |past| {
      IssuedPrefix(lib, work, past, k);
      assert past[..k] == history[..k];
    } else {
      assert past == history[..k];
    }
  }

  lemma IssuedExtends(lib: Library, work: Work, history: History, values: seq<Json>)
    ensures Issued(lib, work, history + [values]) == Issued(lib, work, history) + Width(lib(work, history))
  {
    assert (history + [values])[..|history|] == history;
  }

  /** An index is issued by one group only. */
  lemma OneGroupPerIndex(lib: Library, work: Work, g: History, h: History, i: nat)
    requires ValidHistory(lib, work, g) && ValidHistory(lib, work, h)
    requires Issued(lib, work, g) < i <= Issued(lib, work, g) + Width(lib(work, g))
    requires Issued(lib, work, h) < i <= Issued(lib, work, h) + Width(lib(work, h))
    ensures g == h
  {
    if |g| <= |h| {
      HistoriesAgree(lib, work, g, h);
      if |g| < |h| {
        IssuedPrefix(lib, work, h, |g|);
      }
    } else {
      HistoriesAgree(lib, work, h, g);
      IssuedPrefix(lib, work, g, |h|);
    }
  }

  /** Where an issued id stands among its task's children. */
  lemma IssuedIndex(lib: Library, p: Parent, history: History, child: Id, key: Fingerprint)
    returns (i: nat, func: string)
    requires IssuesAt(lib, p, history, child, key)
    ensures child == ChildId(p.id, i, func)
    ensures Issued(lib, p.work, history) < i <= Issued(lib, p.work, history) + Width(lib(p.work, history))
    ensures match lib(p.work, history)
            case Gather(calls) =>
              var k := i - Issued(lib, p.work, history) - 1;
              func == calls[k].func && key == ChildKey(p, Issued(lib, p.work, history), k, calls[k])
            case _ => func == SLEEP && key.TimerKey?
  {
    hide ValidHistory, ChildKey;
    match lib(p.work, history)
    case Gather(calls) =>
      var k :| CallAt(lib, p, history, calls, k, child, key);
      i, func := Issued(lib, p.work, history) + k + 1, calls[k].func;
    case Sleep(_) =>
      i, func := Issued(lib, p.work, history) + 1, SLEEP;
  }

  /** A child id is issued by one group, with one fingerprint but for the moment a timer is due. */
  lemma OneGroupPerChild(lib: Library, p: Parent, g: History, h: History, child: Id, key: Fingerprint,
                         other: Fingerprint)
    requires IssuesAt(lib, p, g, child, key) && IssuesAt(lib, p, h, child, other)
    ensures g == h
    ensures lib(p.work, h).Gather? ==> key == other
    ensures lib(p.work, h).Sleep? ==> key.TimerKey? && other.TimerKey? && key == other.(dueAt := key.dueAt)
  {
    hide ValidHistory, ChildKey, ChildId, Issued, CallAt;
    var i, f := IssuedIndex(lib, p, g, child, key);
    var j, e := IssuedIndex(lib, p, h, child, other);
    SiblingsDiffer(p.id, i, f, j, e);
    OneGroupPerIndex(lib, p.work, g, h, i);
  }

  /** What the memo or the store holds under the id of a call of the current group was submitted
      for exactly that call. */
  lemma IssuedCallMatches(lib: Library, p: Parent, history: History, calls: seq<Call>, k: nat, child: Id,
                          key: Fingerprint)
    requires ValidHistory(lib, p.work, history) && lib(p.work, history) == Gather(calls) && k < |calls|
    requires child == CallId(p.id, Issued(lib, p.work, history), k, calls[k])
    requires IssuedBy(lib, p, child, key)
    ensures key == ChildKey(p, Issued(lib, p.work, history), k, calls[k])
  {
    hide ValidHistory, ChildKey, ChildId, Issued;
    var mine := ChildKey(p, Issued(lib, p.work, history), k, calls[k]);
    assert CallAt(lib, p, history, calls, k, child, mine);
    assert IssuesAt(lib, p, history, child, mine);
    var g :| IssuesAt(lib, p, g, child, key);
    OneGroupPerChild(lib, p, g, history, child, key, mine);
  }

  /** What is held under the id of the current sleep is its timer, whenever it is due. */
  lemma IssuedTimerMatches(lib: Library, p: Parent, history: History, child: Id, key: Fingerprint)
    requires ValidHistory(lib, p.work, history) && lib(p.work, history).Sleep? && lib(p.work, history).delayMs > 0
    requires child == TimerId(p.id, Issued(lib, p.work, history))
    requires IssuedBy(lib, p, child, key)
    ensures key.TimerKey? && key == TimerKey(child, key.dueAt, None, Some(p.graph))
  {
    hide ValidHistory, ChildKey, ChildId, Issued;
    var g :| IssuesAt(lib, p, g, child, key);
    var mine := TimerKey(child, 0, None, Some(p.graph));
    assert IssuesAt(lib, p, history, child, mine);
    OneGroupPerChild(lib, p, g, history, child, key, mine);
  }

  /** A child is in its parent's graph and its id is longer. */
  lemma IssuedIsChild(lib: Library, p: Parent, child: Id, key: Fingerprint)
    requires IssuedBy(lib, p, child, key)
    ensures p.id < child && |p.id| < |child| && key.root == Some(p.graph)
  {
    hide ValidHistory, Issued;
    var g :| IssuesAt(lib, p, g, child, key);
    var i, f := IssuedIndex(lib, p, g, child, key);
    ChildExtendsParent(p.id, i, f);
  }

  /** The ids of one group are distinct. */
  lemma GroupIdsDistinct(parent: Id, base: nat, calls: seq<Call>, i: nat, j: nat)
    requires i < |calls| && j < |calls| && CallId(parent, base, i, calls[i]) == CallId(parent, base, j, calls[j])
    ensures i == j
  {
    SiblingsDiffer(parent, base + i + 1, calls[i].func, base + j + 1, calls[j].func);
  }

  /** The fingerprint of a child does not depend on when it is submitted. */
  lemma ChildKeyOf(p: Parent, base: nat, k: nat, call: Call, now: int, retentionMs: int)
    ensures CallFingerprint(ChildCall(p, base, k, call, now, retentionMs)) == ChildKey(p, base, k, call)
  {
  }
}
