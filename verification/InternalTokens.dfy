/** Removing internal tokens, written [[...]], from a message body before an agent reads it. */
module InternalTokens {
  import opened Options

  /** The first place where c stands twice in a row. */
  function FindPair(s: string, c: char): (r: Option<nat>)
    ensures r.Some? ==> PairAt(s, c, r.value) && forall i :: 0 <= i < r.value ==> !PairAt(s, c, i)
    ensures r.None? ==> forall i :: 0 <= i ==> !PairAt(s, c, i)
  {
    if |s| < 2 then None
    else if s[0] == c && s[1] == c then Some(0)
    else
      assert forall i :: 0 < i && PairAt(s, c, i) ==> PairAt(s[1..], c, i - 1);
      match FindPair(s[1..], c)
      case None => None
      case Some(i) => Some(i + 1)
  }

  predicate PairAt(s: string, c: char, i: int) { 0 <= i && i + 1 < |s| && s[i] == c && s[i + 1] == c }

  /** The Unicode White_Space characters. */
  predicate White(c: char) {
    || '\U{9}' <= c <= '\U{d}' || c == ' ' || c == '\U{85}' || c == '\U{a0}' || c == '\U{1680}'
    || '\U{2000}' <= c <= '\U{200a}' || c == '\U{2028}' || c == '\U{2029}' || c == '\U{202f}'
    || c == '\U{205f}' || c == '\U{3000}'
  }

  function TrimStart(s: string): string { if s != [] && White(s[0]) then TrimStart(s[1..]) else s }

  function TrimEnd(s: string): string { if s != [] && White(s[|s| - 1]) then TrimEnd(s[..|s| - 1]) else s }

  function Trim(s: string): string { TrimEnd(TrimStart(s)) }

  // The loop

  /** What the loop makes of the text still to be read. */
  function Stripped(rest: string): string {
    match FindPair(rest, '[')
    case None => rest
    case Some(start) =>
      match FindPair(rest[start + 2..], ']')
      case None => rest
      case Some(end) => rest[..start] + Stripped(rest[start + 2 + end + 2..])
  }

  lemma Unfolds(rest: string)
    ensures FindPair(rest, '[').None? ==> Stripped(rest) == rest
    ensures FindPair(rest, '[').Some? ==>
      var start := FindPair(rest, '[').value;
      var end := FindPair(rest[start + 2..], ']');
      Stripped(rest) == if end.None? then rest else rest[..start] + Stripped(rest[start + 2 + end.value + 2..])
  {
    hide FindPair;
  }

  /** The loop's output, from what it has written and what is left to read. */
  function StripFrom(out: string, rest: string): string
    decreases |rest|
  {
    match FindPair(rest, '[')
    case None => out + rest
    case Some(start) =>
      match FindPair(rest[start + 2..], ']')
      case None => out + rest[..start] + rest[start..]
      case Some(end) => StripFrom(out + rest[..start], rest[start + 2 + end + 2..])
  }

  lemma {:induction false} StripFromAppends(out: string, rest: string)
    ensures StripFrom(out, rest) == out + Stripped(rest)
    decreases |rest|
  {
    hide FindPair;
    var opening := FindPair(rest, '[');
    if opening.Some? {
      var start := opening.value;
      var closing := FindPair(rest[start + 2..], ']');
      if closing.Some? {
        var after := rest[start + 2 + closing.value + 2..];
        StripFromAppends(out + rest[..start], after);
        assert (out + rest[..start]) + Stripped(after) == out + (rest[..start] + Stripped(after));
      } else {
        assert rest == rest[..start] + rest[start..];
        assert out + rest[..start] + rest[start..] == out + (rest[..start] + rest[start..]);
      }
    }
  }

  method StripInternalTokens(body: string) returns (out: string)
    ensures out == Trim(Stripped(body))
  {
    hide FindPair, Stripped, Trim;
    out := "";
    var rest := body;
    while true
      invariant StripFrom(out, rest) == StripFrom("", body)
      decreases |rest|
    {
      var start := FindPair(rest, '[');
      if start.None? { break; }
      out := out + rest[..start.value];
      var end := FindPair(rest[start.value + 2..], ']');
      if end.None? {
        out := out + rest[start.value..];
        rest := "";
        assert out == StripFrom("", body);
        break;
      }
      rest := rest[start.value + 2 + end.value + 2..];
    }
    out := out + rest;
    assert out == StripFrom("", body);
    StripFromAppends("", body);
    assert "" + Stripped(body) == Stripped(body);
    out := Trim(out);
  }

  // What is left

  /** No opening pair has a closing pair behind it. */
  ghost predicate Clean(s: string) {
    forall i, j :: PairAt(s, '[', i) && PairAt(s, ']', j) ==> j < i + 2
  }

  lemma {:induction false} StrippedIsClean(s: string)
    ensures Clean(Stripped(s))
    decreases |s|
  {
    hide FindPair;
    var opening := FindPair(s, '[');
    if opening.Some? {
      var start := opening.value;
      var inner := s[start + 2..];
      var closing := FindPair(inner, ']');
      if closing.None? {
        assert forall j :: start + 2 <= j && PairAt(s, ']', j) ==> PairAt(inner, ']', j - (start + 2));
      } else {
        var rest := s[start + 2 + closing.value + 2..];
        StrippedIsClean(rest);
        CutsBefore(s, '[', start);
        CleanAfter(s, start, Stripped(rest));
      }
    }
  }

  /** Text before the first opening pair opens nothing, also together with what follows. */
  lemma CleanAfter(s: string, start: nat, rest: string)
    requires start <= |s| && Clean(rest)
    requires forall i :: 0 <= i < start ==> !PairAt(s, '[', i)
    requires start > 0 ==> s[start - 1] != '['
    ensures Clean(s[..start] + rest)
  {
    var t := s[..start] + rest;
    forall i | 0 <= i < start ensures !PairAt(t, '[', i) { assert !PairAt(s, '[', i); }
    forall i, j | PairAt(t, '[', i) && PairAt(t, ']', j) ensures j < i + 2 {
      assert i + 2 <= j ==> PairAt(rest, '[', i - start) && PairAt(rest, ']', j - start);
    }
  }

  lemma CleanStays(s: string)
    requires Clean(s)
    ensures Stripped(s) == s
  {
    var opening := FindPair(s, '[');
    if opening.Some? {
      var inner := s[opening.value + 2..];
      var closing := FindPair(inner, ']');
      if closing.Some? {
        assert PairAt(s, ']', opening.value + 2 + closing.value);
        assert false;
      }
    }
  }

  lemma SliceClean(s: string, lo: nat, hi: nat)
    requires Clean(s) && lo <= hi <= |s|
    ensures Clean(s[lo..hi])
  {
    var t := s[lo..hi];
    forall i, j | PairAt(t, '[', i) && PairAt(t, ']', j) ensures j < i + 2 {
      assert PairAt(s, '[', lo + i) && PairAt(s, ']', lo + j);
    }
  }

  /** Trimming cuts a slice out that neither begins nor ends with white space. */
  lemma {:induction false} TrimStartSlices(s: string) returns (lo: nat)
    ensures lo <= |s| && TrimStart(s) == s[lo..]
    ensures TrimStart(s) == "" || !White(TrimStart(s)[0])
    ensures forall k :: 0 <= k < lo ==> White(s[k])
  {
    lo := 0;
    if s != [] && White(s[0]) {
      var rest := TrimStartSlices(s[1..]);
      lo := rest + 1;
      forall k | 0 <= k < lo ensures White(s[k]) { assert k > 0 ==> s[k] == s[1..][k - 1]; }
    }
  }

  lemma {:induction false} TrimEndSlices(s: string) returns (hi: nat)
    ensures hi <= |s| && TrimEnd(s) == s[..hi]
    ensures TrimEnd(s) == "" || !White(TrimEnd(s)[|TrimEnd(s)| - 1])
    ensures forall k :: hi <= k < |s| ==> White(s[k])
  {
    hi := |s|;
    if s != [] && White(s[|s| - 1]) {
      hi := TrimEndSlices(s[..|s| - 1]);
      assert s[..|s| - 1][..hi] == s[..hi];
      forall k | hi <= k < |s| ensures White(s[k]) { assert k < |s| - 1 ==> s[k] == s[..|s| - 1][k]; }
    }
  }

  lemma TrimSlices(s: string) returns (lo: nat, hi: nat)
    ensures lo <= hi <= |s| && Trim(s) == s[lo..hi]
    ensures forall k :: 0 <= k < lo || hi <= k < |s| ==> White(s[k])
    ensures Trim(s) == "" || (!White(Trim(s)[0]) && !White(Trim(s)[|Trim(s)| - 1]))
  {
    lo := TrimStartSlices(s);
    var n := TrimEndSlices(s[lo..]);
    hi := lo + n;
    assert s[lo..][..n] == s[lo..hi];
    forall k | hi <= k < |s| ensures White(s[k]) { assert s[k] == s[lo..][k - lo]; }
    if Trim(s) != "" { assert s[lo..][0] == Trim(s)[0]; }
  }

  /** The loop's result has no token left, whatever the body. */
  lemma OutputIsClean(body: string)
    ensures Clean(Trim(Stripped(body)))
  {
    StrippedIsClean(body);
    var lo, hi := TrimSlices(Stripped(body));
    SliceClean(Stripped(body), lo, hi);
  }

  lemma StrippingIsIdempotent(body: string)
    ensures var out := Trim(Stripped(body)); Trim(Stripped(out)) == out
  {
    var out := Trim(Stripped(body));
    OutputIsClean(body);
    CleanStays(out);
    var _, _ := TrimSlices(Stripped(body));
  }

  // An independent account: text cut into kept pieces and tokens

  /** A kept piece and the token behind it. */
  datatype Piece = Piece(kept: string, inner: string)

  ghost predicate NoPair(s: string, c: char) { forall i :: !PairAt(s, c, i) }

  /** The piece opens nothing before its token, and the token closes only at its end. */
  ghost predicate WellCut(p: Piece) {
    && NoPair(p.kept, '[') && (p.kept != "" ==> p.kept[|p.kept| - 1] != '[')
    && NoPair(p.inner, ']') && (p.inner != "" ==> p.inner[|p.inner| - 1] != ']')
  }

  function Source(pieces: seq<Piece>, tail: string): string {
    if pieces == [] then tail
    else pieces[0].kept + "[[" + pieces[0].inner + "]]" + Source(pieces[1..], tail)
  }

  function Kept(pieces: seq<Piece>, tail: string): string {
    if pieces == [] then tail else pieces[0].kept + Kept(pieces[1..], tail)
  }

  ghost predicate Cut(pieces: seq<Piece>, tail: string) { (forall p :: p in pieces ==> WellCut(p)) && Clean(tail) }

  lemma FirstPair(before: string, c: char, after: string)
    requires NoPair(before, c) && (before != "" ==> before[|before| - 1] != c)
    ensures FindPair(before + [c, c] + after, c) == Some(|before|)
  {
    var s := before + [c, c] + after;
    assert PairAt(s, c, |before|);
    forall i | 0 <= i < |before| ensures !PairAt(s, c, i) {
      assert !PairAt(before, c, i);
    }
  }

  /** A body cut into pieces loses exactly the tokens and keeps every piece and the tail, also a
      tail with an unterminated opening. */
  lemma {:induction false} RemovesExactlyTokens(pieces: seq<Piece>, tail: string)
    requires Cut(pieces, tail)
    ensures Stripped(Source(pieces, tail)) == Kept(pieces, tail)
  {
    if pieces == [] {
      CleanStays(tail);
    } else {
      assert WellCut(pieces[0]);
      OneToken(pieces[0], Source(pieces[1..], tail));
      RemovesExactlyTokens(pieces[1..], tail);
    }
  }

  lemma OneToken(p: Piece, rest: string)
    requires WellCut(p)
    ensures Stripped(p.kept + "[[" + p.inner + "]]" + rest) == p.kept + Stripped(rest)
  {
    hide FindPair, Stripped, NoPair;
    var s, inner := p.kept + "[[" + p.inner + "]]" + rest, p.inner + "]]" + rest;
    Offsets(p.kept, p.inner, rest);
    FirstPair(p.kept, '[', inner);
    FirstPair(p.inner, ']', rest);
    Unfolds(s);
  }

  lemma Offsets(kept: string, inner: string, rest: string)
    ensures var s := kept + "[[" + inner + "]]" + rest;
      && s == kept + "[[" + (inner + "]]" + rest)
      && s[..|kept|] == kept
      && s[|kept| + 2..] == inner + "]]" + rest
      && s[|kept| + 2 + |inner| + 2..] == rest
  {
  }

  /** Every body can be cut that way. */
  lemma {:induction false} EveryBodyIsCut(s: string) returns (pieces: seq<Piece>, tail: string)
    ensures Cut(pieces, tail) && Source(pieces, tail) == s
    decreases |s|
  {
    hide FindPair;
    pieces, tail := [], s;
    var opening := FindPair(s, '[');
    if opening.None? { return; }
    var start, inner := opening.value, s[opening.value + 2..];
    var closing := FindPair(inner, ']');
    if closing.None? {
      assert forall j :: start + 2 <= j && PairAt(s, ']', j) ==> PairAt(inner, ']', j - (start + 2));
      return;
    }
    var end, after := closing.value, inner[closing.value + 2..];
    var rest, last := EveryBodyIsCut(after);
    var p := Piece(s[..start], inner[..end]);
    CutsBefore(s, '[', start);
    CutsBefore(inner, ']', end);
    pieces, tail := [p] + rest, last;
    assert pieces[1..] == rest;
    Reassembles(s, start, end);
  }

  lemma Reassembles(s: string, start: nat, end: nat)
    requires PairAt(s, '[', start) && PairAt(s[start + 2..], ']', end)
    ensures var inner := s[start + 2..]; s == s[..start] + "[[" + inner[..end] + "]]" + inner[end + 2..]
  {
  }

  lemma CutsBefore(s: string, c: char, n: nat)
    requires FindPair(s, c) == Some(n)
    ensures n <= |s| && NoPair(s[..n], c) && (n > 0 ==> s[n - 1] != c)
  {
    assert PairAt(s, c, n);
    assert forall i :: PairAt(s[..n], c, i) ==> PairAt(s, c, i);
    assert n > 0 ==> !PairAt(s, c, n - 1);
  }
}
