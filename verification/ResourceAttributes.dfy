/** The `key=value,key=value` parser of OTEL_RESOURCE_ATTRIBUTES (NewConfig in pkg/observability/otel.go). */
module ResourceAttributes {
  import opened Wrappers

  // ---------- strings.Split, strings.SplitN(_, "=", 2), strings.TrimSpace ----------

  /** Index of the first `c`, or the length. */
  function Find(s: string, c: char): (i: nat)
    ensures i <= |s| && (i < |s| ==> s[i] == c) && forall j | 0 <= j < i :: s[j] != c
  {
    if s == "" || s[0] == c then 0
    else 1 + Find(s[1..], c)
  }

  /** Never empty: an input without the separator is its own only part. */
  function Split(s: string, c: char): (parts: seq<string>)
    ensures parts != []
    decreases |s|
  {
    var i := Find(s, c);
    if i == |s| then [s] else [s[..i]] + Split(s[i + 1..], c)
  }

  predicate IsSpace(c: char) {
    || '\t' <= c <= '\r' || c == ' ' || c == '\U{85}' || c == '\U{A0}' || c == '\U{1680}'
    || '\U{2000}' <= c <= '\U{200A}' || c == '\U{2028}' || c == '\U{2029}' || c == '\U{202F}'
    || c == '\U{205F}' || c == '\U{3000}'
  }

  function TrimLeft(s: string): string {
    if s != "" && IsSpace(s[0]) then TrimLeft(s[1..]) else s
  }

  function TrimRight(s: string): string {
    if s != "" && IsSpace(s[|s| - 1]) then TrimRight(s[..|s| - 1]) else s
  }

  function TrimSpace(s: string): string {
    TrimRight(TrimLeft(s))
  }

  // ---------- the parser ----------

  datatype Pair = Pair(key: string, value: string)

  function ParsePair(part: string): Option<Pair> {
    var i := Find(part, '=');
    if i == |part| then None else Some(Pair(TrimSpace(part[..i]), TrimSpace(part[i + 1..])))
  }

  /** The map the loop has filled after `parts`. */
  function Fill(parts: seq<string>): map<string, string> {
    if parts == [] then map[]
    else
      var before := Fill(parts[..|parts| - 1]);
      match ParsePair(parts[|parts| - 1])
      case None => before
      case Some(p) => before[p.key := p.value]
  }

  function Attributes(attrStr: string): map<string, string> {
    if attrStr == "" then map[] else Fill(Split(attrStr, ','))
  }

  /** The loop of NewConfig. */
  method ResourceAttributesOf(attrStr: string) returns (resourceAttrs: map<string, string>)
    ensures resourceAttrs == Attributes(attrStr)
  {
    resourceAttrs := map[];
    if attrStr != "" {
      var parts := Split(attrStr, ',');
      for n := 0 to |parts|
        invariant resourceAttrs == Fill(parts[..n])
      {
        assert parts[..n + 1][..n] == parts[..n];
        var i := Find(parts[n], '=');
        if i < |parts[n]| {
          resourceAttrs := resourceAttrs[TrimSpace(parts[n][..i]) := TrimSpace(parts[n][i + 1..])];
        }
      }
      assert parts[..|parts|] == parts;
    }
  }

  // ---------- arbitrary input ----------

  /** Position `n` holds the last pair with key `k`. */
  predicate LastWith(parts: seq<string>, n: nat, k: string) {
    && n < |parts| && ParsePair(parts[n]).Some? && ParsePair(parts[n]).value.key == k
    && forall m | n < m < |parts| && ParsePair(parts[m]).Some? :: ParsePair(parts[m]).value.key != k
  }

  /** Parts without '=' are ignored; of several pairs with one key the last one decides. */
  lemma {:induction false} LastPairWins(parts: seq<string>, k: string)
    ensures k in Fill(parts) <==> exists n: nat :: LastWith(parts, n, k)
    ensures forall n: nat | LastWith(parts, n, k) :: Fill(parts)[k] == ParsePair(parts[n]).value.value
  {
    hide ParsePair;
    if parts != [] {
      var front, last := parts[..|parts| - 1], |parts| - 1;
      LastPairWins(front, k);
      assert forall n | 0 <= n < last :: front[n] == parts[n];
      if ParsePair(parts[last]).Some? && ParsePair(parts[last]).value.key == k {
        assert LastWith(parts, last, k);
      } else {
        forall n: nat
          ensures LastWith(parts, n, k) <==> LastWith(front, n, k)
        {
        }
      }
    }
  }

  // ---------- splitting and trimming ----------

  function Glue(parts: seq<string>, c: char): string
    requires parts != []
  {
    if |parts| == 1 then parts[0] else parts[0] + [c] + Glue(parts[1..], c)
  }

  /** The parts have no separator in them and, put together with separators between them, are the input. */
  lemma {:induction false} SplitExactly(s: string, c: char)
    ensures Glue(Split(s, c), c) == s && forall part | part in Split(s, c) :: c !in part
    decreases |s|
  {
    var i := Find(s, c);
    if i < |s| {
      SplitExactly(s[i + 1..], c);
      var rest := Split(s[i + 1..], c);
      assert Split(s, c)[1..] == rest;
      assert s == s[..i] + [c] + s[i + 1..];
    }
  }

  predicate Blank(s: string) {
    forall c | c in s :: IsSpace(c)
  }

  lemma {:induction false} TrimLeftExactly(a: string, s: string)
    requires Blank(a) && (s == "" || !IsSpace(s[0]))
    ensures TrimLeft(a + s) == s
  {
    if a == "" {
      assert a + s == s;
    } else {
      assert a[0] in a && forall c | c in a[1..] :: c in a;
      TrimLeftExactly(a[1..], s);
      assert (a + s)[1..] == a[1..] + s;
    }
  }

  lemma {:induction false} TrimRightExactly(s: string, b: string)
    requires Blank(b) && (s == "" || !IsSpace(s[|s| - 1]))
    ensures TrimRight(s + b) == s
  {
    if b == "" {
      assert s + b == s;
    } else {
      var front := b[..|b| - 1];
      assert b[|b| - 1] in b && forall c | c in front :: c in b;
      TrimRightExactly(s, front);
      assert (s + b)[..|s + b| - 1] == s + front;
    }
  }

  /** Trimming takes the spaces off both ends, all of them and nothing else. */
  lemma TrimSpaceExactly(a: string, s: string, b: string)
    requires Blank(a) && Blank(b) && Trimmed(s)
    ensures TrimSpace(a + s + b) == s
  {
    if s == "" {
      TrimLeftExactly(a + b, "");
      assert a + s + b == a + b + "";
    } else {
      TrimLeftExactly(a, s + b);
      TrimRightExactly(s, b);
      assert a + s + b == a + (s + b);
    }
  }

  /** Of a part the first '=' separates key and value, and spaces around either do not count. */
  lemma PairExactly(before: string, key: string, after: string, front: string, value: string, back: string)
    requires Blank(before) && Blank(after) && Blank(front) && Blank(back)
    requires Trimmed(key) && '=' !in key && Trimmed(value)
    ensures ParsePair(before + key + after + "=" + (front + value + back)) == Some(Pair(key, value))
  {
    var left, right := before + key + after, front + value + back;
    assert !IsSpace('=');
    FindFirst(left, '=', right);
    var part := left + "=" + right;
    assert part[..|left|] == left && part[|left| + 1..] == right;
    TrimSpaceExactly(before, key, after);
    TrimSpaceExactly(front, value, back);
  }

  // ---------- round trip ----------

  predicate Trimmed(s: string) {
    s == "" || (!IsSpace(s[0]) && !IsSpace(s[|s| - 1]))
  }

  predicate WellFormed(p: Pair) {
    && Trimmed(p.key) && ',' !in p.key && '=' !in p.key
    && Trimmed(p.value) && ',' !in p.value
  }

  function Print(p: Pair): string {
    p.key + "=" + p.value
  }

  function Join(pairs: seq<Pair>): string {
    if pairs == [] then ""
    else if |pairs| == 1 then Print(pairs[0])
    else Print(pairs[0]) + "," + Join(pairs[1..])
  }

  function Printed(pairs: seq<Pair>): seq<string> {
    seq(|pairs|, i requires 0 <= i < |pairs| => Print(pairs[i]))
  }

  lemma TrimmedStays(s: string)
    requires Trimmed(s)
    ensures TrimSpace(s) == s
  {
  }

  lemma FindFirst(a: string, c: char, b: string)
    requires c !in a
    ensures Find(a + [c] + b, c) == |a|
  {
    var s := a + [c] + b;
    var i := Find(s, c);
    assert s[|a|] == c;
    assert forall j | 0 <= j < |a| :: s[j] == a[j];
  }

  lemma FindNone(a: string, c: char)
    requires c !in a
    ensures Find(a, c) == |a|
  {
  }

  lemma PairRoundTrip(p: Pair)
    requires WellFormed(p)
    ensures ParsePair(Print(p)) == Some(p)
  {
    FindFirst(p.key, '=', p.value);
    assert Print(p)[..|p.key|] == p.key;
    assert Print(p)[|p.key| + 1..] == p.value;
    TrimmedStays(p.key);
    TrimmedStays(p.value);
  }

  lemma NoCommaInside(p: Pair)
    requires WellFormed(p)
    ensures ',' !in Print(p)
  {
  }

  lemma SplitFirst(a: string, c: char, b: string)
    requires c !in a
    ensures Split(a + [c] + b, c) == [a] + Split(b, c) && Split(a, c) == [a]
  {
    var s := a + [c] + b;
    FindFirst(a, c, b);
    FindNone(a, c);
    assert s[..|a|] == a && s[|a| + 1..] == b;
  }

  lemma {:induction false} SplitJoin(pairs: seq<Pair>)
    requires pairs != [] && forall p | p in pairs :: WellFormed(p)
    ensures Split(Join(pairs), ',') == Printed(pairs)
  {
    hide WellFormed, Print, Split;
    var first := Print(pairs[0]);
    NoCommaInside(pairs[0]);
    if |pairs| == 1 {
      SplitFirst(first, ',', "");
      assert Printed(pairs) == [first];
    } else {
      var rest := pairs[1..];
      assert Join(pairs) == first + [','] + Join(rest);
      SplitFirst(first, ',', Join(rest));
      SplitJoin(rest);
      assert Printed(pairs) == [first] + Printed(rest);
    }
  }

  lemma JoinNonempty(pairs: seq<Pair>)
    requires pairs != []
    ensures Join(pairs) != ""
  {
    assert '=' in Print(pairs[0]);
  }

  /** The map a list of pairs stands for, the last one winning. */
  function MapOf(pairs: seq<Pair>): map<string, string> {
    if pairs == [] then map[]
    else MapOf(pairs[..|pairs| - 1])[pairs[|pairs| - 1].key := pairs[|pairs| - 1].value]
  }

  lemma {:induction false} FillPrinted(pairs: seq<Pair>)
    requires forall p | p in pairs :: WellFormed(p)
    ensures Fill(Printed(pairs)) == MapOf(pairs)
  {
    hide WellFormed, Print, ParsePair;
    if pairs != [] {
      var front, last := pairs[..|pairs| - 1], pairs[|pairs| - 1];
      assert last in pairs;
      FillPrinted(front);
      PairRoundTrip(last);
      assert Printed(pairs)[..|pairs| - 1] == Printed(front);
    }
  }

  /** Joining well-formed pairs in any order and parsing gives the map they stand for. */
  lemma AttributesRoundTrip(pairs: seq<Pair>)
    requires forall p | p in pairs :: WellFormed(p)
    ensures Attributes(Join(pairs)) == MapOf(pairs)
  {
    if pairs != [] {
      JoinNonempty(pairs);
      SplitJoin(pairs);
      FillPrinted(pairs);
    }
  }

  /** The pairs of `m`, each key once, in whatever order. */
  ghost predicate Enumerates(pairs: seq<Pair>, m: map<string, string>) {
    && (forall i, j | 0 <= i < j < |pairs| :: pairs[i].key != pairs[j].key)
    && (forall p | p in pairs :: p.key in m && m[p.key] == p.value)
    && (forall k | k in m :: Pair(k, m[k]) in pairs)
  }

  lemma {:induction false} MapOfMembers(pairs: seq<Pair>)
    requires forall i, j | 0 <= i < j < |pairs| :: pairs[i].key != pairs[j].key
    ensures forall p | p in pairs :: p.key in MapOf(pairs) && MapOf(pairs)[p.key] == p.value
    ensures forall k | k in MapOf(pairs) :: Pair(k, MapOf(pairs)[k]) in pairs
  {
    if pairs != [] {
      var front := pairs[..|pairs| - 1];
      MapOfMembers(front);
      assert forall p | p in pairs :: p in front || p == pairs[|pairs| - 1];
      assert forall p | p in front :: p in pairs && p.key != pairs[|pairs| - 1].key;
    }
  }

  /** A map survives being written out, in any order, and parsed. */
  lemma MapRoundTrip(m: map<string, string>, pairs: seq<Pair>)
    requires Enumerates(pairs, m) && forall p | p in pairs :: WellFormed(p)
    ensures Attributes(Join(pairs)) == m
  {
    AttributesRoundTrip(pairs);
    MapOfMembers(pairs);
    var n := MapOf(pairs);
    assert forall k | k in m :: Pair(k, m[k]) in pairs;
    assert forall k | k in n :: Pair(k, n[k]) in pairs;
    assert n.Keys == m.Keys;
  }
}
