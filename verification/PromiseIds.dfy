/** Deterministic promise ids: a child's id is its parent's id followed by `:index:function`. */
module PromiseIds {
  import opened Wrappers

  // ---------------------------------------------------------------- decimal numerals

  function Digit(d: nat): char
    requires d < 10
  {
    '0' + d as char
  }

  predicate IsDigit(c: char) {
    '0' <= c <= '9'
  }

  function Decimal(n: nat): string {
    if n < 10 then [Digit(n)] else Decimal(n / 10) + [Digit(n % 10)]
  }

  function ParseDecimal(s: string): Option<nat> {
    if s == "" || !IsDigit(s[|s| - 1]) then None
    else
      var d := (s[|s| - 1] - '0') as nat;
      if |s| == 1 then Some(d)
      else match ParseDecimal(s[..|s| - 1])
           case Some(n) => if n == 0 then None else Some(10 * n + d)
           case None => None
  }

  predicate NoColon(s: string) {
    forall i :: 0 <= i < |s| ==> s[i] != ':'
  }

  lemma {:induction false} DecimalDigits(n: nat)
    ensures Decimal(n) != "" && forall i :: 0 <= i < |Decimal(n)| ==> IsDigit(Decimal(n)[i])
  {
    if n >= 10 {
      DecimalDigits(n / 10);
    }
  }

  lemma {:induction false} DecimalRoundTrip(n: nat)
    ensures ParseDecimal(Decimal(n)) == Some(n)
  {
    if n >= 10 {
      DecimalRoundTrip(n / 10);
      DecimalDigits(n / 10);
      assert Decimal(n)[..|Decimal(n)| - 1] == Decimal(n / 10);
    }
  }

  lemma {:induction false} DecimalCanonical(s: string)
    ensures ParseDecimal(s).Some? ==> Decimal(ParseDecimal(s).value) == s
  {
    if ParseDecimal(s).Some? && |s| > 1 {
      DecimalCanonical(s[..|s| - 1]);
      assert s == s[..|s| - 1] + [s[|s| - 1]];
    }
  }

  // ---------------------------------------------------------------- ids

  /** One step of a call path: the position of the call in its task, and the function called. */
  datatype Hop = Hop(index: nat, func: string)

  function ChildId(parent: string, index: nat, func: string): string {
    parent + ":" + Decimal(index) + ":" + func
  }

  /** The id of a call path below a root, as nested tasks build it. */
  function PathId(root: string, path: seq<Hop>): string {
    if path == [] then root
    else ChildId(PathId(root, path[..|path| - 1]), path[|path| - 1].index, path[|path| - 1].func)
  }

  predicate PathOk(path: seq<Hop>) {
    forall i :: 0 <= i < |path| ==> NoColon(path[i].func)
  }

  function HopText(hop: Hop, rest: string): string {
    ":" + (Decimal(hop.index) + (":" + (hop.func + rest)))
  }

  function Suffix(path: seq<Hop>): string {
    if path == [] then "" else HopText(path[0], Suffix(path[1..]))
  }

  /** The text before the first colon, and the rest from the colon on. */
  function Split(s: string): (string, string) {
    if s == "" || s[0] == ':' then ("", s)
    else var (head, tail) := Split(s[1..]); ([s[0]] + head, tail)
  }

  lemma {:induction false} SplitParts(s: string)
    ensures s == Split(s).0 + Split(s).1
    ensures NoColon(Split(s).0) && (Split(s).1 == "" || Split(s).1[0] == ':')
  {
    if s != "" && s[0] != ':' {
      SplitParts(s[1..]);
    }
  }

  lemma {:induction false} SplitAt(head: string, tail: string)
    requires NoColon(head) && (tail == "" || tail[0] == ':')
    ensures Split(head + tail) == (head, tail)
  {
    if head == "" {
      assert head + tail == tail;
    } else {
      SplitAt(head[1..], tail);
      assert (head + tail)[1..] == head[1..] + tail;
      assert [head[0]] + head[1..] == head;
    }
  }

  function ParseHops(s: string): Option<seq<Hop>>
    decreases |s|
  {
    if s == "" then Some([])
    else if s[0] != ':' then None
    else
      var (numeral, rest) := Split(s[1..]);
      SplitParts(s[1..]);
      if ParseDecimal(numeral).None? || rest == "" then None
      else
        var (func, more) := Split(rest[1..]);
        SplitParts(rest[1..]);
        match ParseHops(more)
        case Some(path) => Some([Hop(ParseDecimal(numeral).value, func)] + path)
        case None => None
  }

  /** Recover the call path of an id below a known root. */
  function ParseId(root: string, id: string): Option<seq<Hop>> {
    if root <= id then ParseHops(id[|root|..]) else None
  }

  lemma {:induction false} SuffixStart(path: seq<Hop>)
    ensures Suffix(path) == "" || Suffix(path)[0] == ':'
  {
  }

  lemma HopParses(hop: Hop, rest: string)
    requires NoColon(hop.func) && (rest == "" || rest[0] == ':')
    ensures ParseHops(HopText(hop, rest)) ==
            match ParseHops(rest)
            case Some(path) => Some([hop] + path)
            case None => None
  {
    var s := HopText(hop, rest);
    var numeral, tail := Decimal(hop.index), hop.func + rest;
    DecimalRoundTrip(hop.index);
    DecimalDigits(hop.index);
    assert s[1..] == numeral + (":" + tail);
    SplitAt(numeral, ":" + tail);
    assert (":" + tail)[1..] == tail;
    SplitAt(hop.func, rest);
  }

  lemma {:induction false} SuffixParses(path: seq<Hop>)
    requires PathOk(path)
    ensures ParseHops(Suffix(path)) == Some(path)
  {
    if path != [] {
      SuffixParses(path[1..]);
      SuffixStart(path[1..]);
      HopParses(path[0], Suffix(path[1..]));
      assert path == [path[0]] + path[1..];
    }
  }

  lemma HopTextAppends(hop: Hop, a: string, b: string)
    ensures HopText(hop, a + b) == HopText(hop, a) + b
  {
  }

  lemma {:induction false} SuffixAppends(path: seq<Hop>, hop: Hop)
    ensures Suffix(path + [hop]) == Suffix(path) + HopText(hop, "")
  {
    if path == [] {
      assert path + [hop] == [hop];
      assert [hop][1..] == [] && Suffix([]) == "";
    } else {
      SuffixAppends(path[1..], hop);
      assert (path + [hop])[1..] == path[1..] + [hop];
      HopTextAppends(path[0], Suffix(path[1..]), HopText(hop, ""));
    }
  }

  lemma ChildIdIsHop(parent: string, hop: Hop)
    ensures ChildId(parent, hop.index, hop.func) == parent + HopText(hop, "")
  {
  }

  lemma Reassociate(a: string, b: string, c: string)
    ensures a + (b + c) == (a + b) + c
  {
  }

  lemma {:induction false} PathIdIsSuffix(root: string, path: seq<Hop>)
    ensures PathId(root, path) == root + Suffix(path)
  {
    hide HopText, ChildId;
    if path != [] {
      var init, last := path[..|path| - 1], path[|path| - 1];
      PathIdIsSuffix(root, init);
      SuffixAppends(init, last);
      ChildIdIsHop(PathId(root, init), last);
      assert path == init + [last];
      Reassociate(root, Suffix(init), HopText(last, ""));
    } else {
      assert Suffix(path) == "";
    }
  }

  /** Printing a call path and parsing the id below its root gives the path back. */
  lemma IdsParseBack(root: string, path: seq<Hop>)
    requires PathOk(path)
    ensures ParseId(root, PathId(root, path)) == Some(path)
  {
    PathIdIsSuffix(root, path);
    SuffixParses(path);
    assert (root + Suffix(path))[|root|..] == Suffix(path);
  }

  lemma {:induction false} HopsPrintBack(s: string)
    ensures ParseHops(s).Some? ==> Suffix(ParseHops(s).value) == s && PathOk(ParseHops(s).value)
    decreases |s|
  {
    if ParseHops(s).Some? && s != "" {
      var (numeral, rest) := Split(s[1..]);
      SplitParts(s[1..]);
      var (func, more) := Split(rest[1..]);
      SplitParts(rest[1..]);
      HopsPrintBack(more);
      DecimalCanonical(numeral);
      var hop := Hop(ParseDecimal(numeral).value, func);
      var path := ParseHops(more).value;
      assert ParseHops(s).value == [hop] + path && ([hop] + path)[1..] == path;
      PrintsBack(s, hop, rest, more);
    }
  }

  lemma PrintsBack(s: string, hop: Hop, rest: string, more: string)
    requires s != "" && s[0] == ':' && s[1..] == Decimal(hop.index) + rest
    requires rest != "" && rest[0] == ':' && rest[1..] == hop.func + more
    ensures HopText(hop, more) == s
  {
    assert rest == ":" + rest[1..];
    assert s == ":" + s[1..];
  }

  /** Every id that parses is the id of the path it parses to. */
  lemma ParsedIdsPrintBack(root: string, id: string)
    ensures ParseId(root, id).Some? ==> PathId(root, ParseId(root, id).value) == id && PathOk(ParseId(root, id).value)
  {
    if ParseId(root, id).Some? {
      HopsPrintBack(id[|root|..]);
      PathIdIsSuffix(root, ParseId(root, id).value);
      assert id == root + id[|root|..];
    }
  }

  /** Distinct call paths below one root never share an id. */
  lemma DistinctPathsNeverCollide(root: string, p: seq<Hop>, q: seq<Hop>)
    requires PathOk(p) && PathOk(q)
    ensures PathId(root, p) == PathId(root, q) <==> p == q
  {
    IdsParseBack(root, p);
    IdsParseBack(root, q);
  }

  /** The parent, the position and the function of a child can be read off its id. */
  lemma ChildIdInjective(a: string, i: nat, f: string, b: string, j: nat, g: string)
    requires NoColon(f) && NoColon(g)
    ensures ChildId(a, i, f) == ChildId(b, j, g) <==> a == b && i == j && f == g
  {
    if ChildId(a, i, f) == ChildId(b, j, g) {
      LastColon(a + ":" + Decimal(i), f, b + ":" + Decimal(j), g);
      DecimalDigits(i);
      DecimalDigits(j);
      LastColon(a, Decimal(i), b, Decimal(j));
      DecimalRoundTrip(i);
      DecimalRoundTrip(j);
    }
  }

  lemma ColonSpots(a: string, f: string)
    requires NoColon(f)
    ensures var s := a + ":" + f; s[|a|] == ':' && forall k :: |a| < k < |s| ==> s[k] != ':'
  {
    var s := a + ":" + f;
    forall k | |a| < k < |s| ensures s[k] == f[k - |a| - 1] {
    }
  }

  /** What follows the last colon is determined by the text. */
  lemma LastColon(a: string, f: string, b: string, g: string)
    requires NoColon(f) && NoColon(g) && a + ":" + f == b + ":" + g
    ensures a == b && f == g
  {
    var s, t := a + ":" + f, b + ":" + g;
    ColonSpots(a, f);
    ColonSpots(b, g);
    assert |a| == |b|;
    assert a == s[..|a|] && b == t[..|b|];
    assert f == s[|a| + 1..] && g == t[|b| + 1..];
  }

  /** A child's id strictly extends its parent's. */
  lemma ChildExtendsParent(parent: string, index: nat, func: string)
    ensures parent < ChildId(parent, index, func) && |parent| + 2 < |ChildId(parent, index, func)|
  {
    DecimalDigits(index);
  }

  /** The id is the parent's followed by a decimal position and a function name. */
  predicate ChildOf(parent: string, id: string) {
    parent < id && exists j :: |parent| < j < |id| && SplitsAt(id, |parent|, j)
  }

  predicate SplitsAt(id: string, i: nat, j: nat)
    requires i < j < |id|
  {
    id[i] == ':' && id[j] == ':' && NoColon(id[j + 1..]) && ParseDecimal(id[i + 1..j]).Some?
  }

  lemma ChildIdIsChildOf(parent: string, index: nat, func: string)
    requires NoColon(func)
    ensures ChildOf(parent, ChildId(parent, index, func))
  {
    var id, j := ChildId(parent, index, func), |parent| + 1 + |Decimal(index)|;
    DecimalRoundTrip(index);
    assert id[|parent| + 1..j] == Decimal(index) && id[j + 1..] == func;
    assert SplitsAt(id, |parent|, j);
  }

  /** An id is of this form exactly when it is the id of some child of the parent. */
  lemma ChildOfIffChildId(parent: string, id: string)
    ensures ChildOf(parent, id) <==> exists index: nat, func :: NoColon(func) && id == ChildId(parent, index, func)
  {
    if ChildOf(parent, id) {
      var j :| |parent| < j < |id| && SplitsAt(id, |parent|, j);
      DecimalCanonical(id[|parent| + 1..j]);
      assert id == ChildId(parent, ParseDecimal(id[|parent| + 1..j]).value, id[j + 1..]);
    }
    if index: nat, func :| NoColon(func) && id == ChildId(parent, index, func) {
      ChildIdIsChildOf(parent, index, func);
    }
  }

  /** An id is a child's of one parent at most. */
  lemma OneParent(a: string, b: string, id: string)
    requires ChildOf(a, id) && ChildOf(b, id)
    ensures a == b
  {
    ChildOfIffChildId(a, id);
    ChildOfIffChildId(b, id);
    var i: nat, f :| NoColon(f) && id == ChildId(a, i, f);
    var j: nat, g :| NoColon(g) && id == ChildId(b, j, g);
    ChildIdInjective(a, i, f, b, j, g);
  }

  /** Within one task an id names one position and one function, whatever the function's name. */
  lemma SiblingsDiffer(parent: string, i: nat, f: string, j: nat, g: string)
    requires ChildId(parent, i, f) == ChildId(parent, j, g)
    ensures i == j && f == g
  {
    DecimalDigits(i);
    DecimalDigits(j);
    var s, t := ChildId(parent, i, f), ChildId(parent, j, g);
    assert s[|parent| + 1..] == Decimal(i) + (":" + f);
    assert t[|parent| + 1..] == Decimal(j) + (":" + g);
    SplitAt(Decimal(i), ":" + f);
    SplitAt(Decimal(j), ":" + g);
    DecimalRoundTrip(i);
    DecimalRoundTrip(j);
    assert (":" + f)[1..] == f && (":" + g)[1..] == g;
  }
}
