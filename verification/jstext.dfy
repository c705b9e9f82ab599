/** The JavaScript string built-ins the worker's parsers rely on:
    `String.prototype.split` on one or more separator characters,
    `trim`, `indexOf` and `replace` of one character by another. */
module JsText {

  import opened Wrappers
  import opened Seqs

  /** The characters `String.prototype.trim` removes: the ECMAScript
      WhiteSpace and LineTerminator code points. */
  predicate IsWhite(c: char) {
    || '\t' <= c <= '\r'                 // tab, line feed, vertical tab, form feed, carriage return
    || c == ' ' || c == '\U{00A0}' || c == '\U{1680}'
    || '\U{2000}' <= c <= '\U{200A}'     // the Unicode spaces from en quad to hair space
    || c == '\U{2028}' || c == '\U{2029}' || c == '\U{202F}' || c == '\U{205F}'
    || c == '\U{3000}' || c == '\U{FEFF}'
  }

  /** A string `trim` leaves alone: it neither starts nor ends with white space. */
  predicate Trimmed(s: string) {
    s == [] || (!IsWhite(s[0]) && !IsWhite(s[|s| - 1]))
  }

  function TrimStart(s: string): (r: string)
    ensures |r| <= |s|
    ensures r == [] || !IsWhite(r[0])
  {
    if |s| > 0 && IsWhite(s[0]) then TrimStart(s[1..]) else s
  }

  function TrimEnd(s: string): (r: string)
    ensures |r| <= |s|
    ensures r == [] || !IsWhite(r[|r| - 1])
  {
    if |s| > 0 && IsWhite(s[|s| - 1]) then TrimEnd(s[..|s| - 1]) else s
  }

  /** `trimStart` keeps a suffix and cuts only white space. */
  lemma {:induction false} TrimStartCutsWhite(s: string)
    ensures TrimStart(s) == s[|s| - |TrimStart(s)|..]
    ensures forall i :: 0 <= i < |s| - |TrimStart(s)| ==> IsWhite(s[i])
  {
    if |s| > 0 && IsWhite(s[0]) {
      TrimStartCutsWhite(s[1..]);
    }
  }

  /** `trimEnd` keeps a prefix and cuts only white space. */
  lemma {:induction false} TrimEndCutsWhite(s: string)
    ensures TrimEnd(s) == s[..|TrimEnd(s)|]
    ensures forall i :: |TrimEnd(s)| <= i < |s| ==> IsWhite(s[i])
  {
    if |s| > 0 && IsWhite(s[|s| - 1]) {
      TrimEndCutsWhite(s[..|s| - 1]);
    }
  }

  /** `s.trim()`: the longest middle part of `s` that neither starts nor
      ends with white space; only white space is cut off either side. */
  function Trim(s: string): (r: string)
    ensures Trimmed(r) && |r| <= |s|
  {
    var t := TrimStart(s);
    TrimEndCutsWhite(t);
    TrimEnd(t)
  }

  /** What `trim` cuts off: white space before and after, and nothing else. */
  lemma TrimCutsOnlyWhite(s: string)
    ensures exists i, j :: 0 <= i <= j <= |s| && Trim(s) == s[i..j]
                          && (forall k :: 0 <= k < i ==> IsWhite(s[k]))
                          && (forall k :: j <= k < |s| ==> IsWhite(s[k]))
  {
    var t := TrimStart(s);
    var r := TrimEnd(t);
    TrimStartCutsWhite(s);
    TrimEndCutsWhite(t);
    var i, j := |s| - |t|, |s| - |t| + |r|;
    assert r == s[i..j];
    forall k | j <= k < |s| ensures IsWhite(s[k]) {
      assert s[k] == t[k - i];
    }
  }

  predicate AllWhite(s: string) {
    forall k :: 0 <= k < |s| ==> IsWhite(s[k])
  }

  /** `trimStart` removes white space in front of a string that does not start with white space. */
  lemma {:induction false} TrimStartOfPadded(pad: string, s: string)
    requires AllWhite(pad) && (s == [] || !IsWhite(s[0]))
    ensures TrimStart(pad + s) == s
    decreases |pad|
  {
    if |pad| == 0 {
      EmptyAppend(s);
    } else {
      assert (pad + s)[0] == pad[0] && (pad + s)[1..] == pad[1..] + s;
      TrimStartOfPadded(pad[1..], s);
    }
  }

  /** `trimEnd` removes white space after a string that does not end with white space. */
  lemma {:induction false} TrimEndOfPadded(s: string, pad: string)
    requires AllWhite(pad) && (s == [] || !IsWhite(s[|s| - 1]))
    ensures TrimEnd(s + pad) == s
    decreases |pad|
  {
    if |pad| == 0 {
      AppendEmpty(s);
    } else {
      FrontOfAppend(s, pad);
      TrimEndOfPadded(s, pad[..|pad| - 1]);
    }
  }

  /** `trim` removes exactly the white padding around a trimmed string. */
  lemma TrimOfPadded(before: string, s: string, after: string)
    requires AllWhite(before) && AllWhite(after) && Trimmed(s)
    ensures Trim(before + s + after) == s
  {
    assert before + s + after == before + (s + after);
    if s == [] {
      EmptyAppend(after);
      TrimStartOfPadded(before + after, []);
      AppendEmpty(before + after);
    } else {
      assert (s + after)[0] == s[0];
      TrimStartOfPadded(before, s + after);
      TrimEndOfPadded(s, after);
    }
  }

  /** `trim` changes nothing on a string that is already trimmed, so it is idempotent. */
  lemma TrimOfTrimmed(s: string)
    requires Trimmed(s)
    ensures Trim(s) == s
  {
  }

  /** The first position of a character of `chars`, if any: `s.indexOf(c)`
      when `chars` is `{c}`. */
  function IndexOfAny(s: string, chars: set<char>): (r: Option<nat>)
    ensures r.Some? ==> r.value < |s| && s[r.value] in chars
                        && forall k :: 0 <= k < r.value ==> s[k] !in chars
    ensures r.None? ==> forall k :: 0 <= k < |s| ==> s[k] !in chars
  {
    if |s| == 0 then None
    else if s[0] in chars then Some(0)
    else
      match IndexOfAny(s[1..], chars)
      case None => None
      case Some(i) => Some(i + 1)
  }

  /** `s.split(sep)` for a single character, or `s.split(/[...]/)` for a
      character class: the pieces between separator characters, always at
      least one (the empty string splits into `[""]`). */
  function SplitOn(s: string, seps: set<char>): (r: seq<string>)
    ensures |r| >= 1
    ensures forall i, k :: 0 <= i < |r| && 0 <= k < |r[i]| ==> r[i][k] !in seps
    decreases |s|
  {
    match IndexOfAny(s, seps)
    case None => [s]
    case Some(i) => [s[..i]] + SplitOn(s[i + 1..], seps)
  }

  /** `pieces.join(sep)`. */
  function Join(pieces: seq<string>, sep: char): string {
    if |pieces| == 0 then ""
    else if |pieces| == 1 then pieces[0]
    else pieces[0] + [sep] + Join(pieces[1..], sep)
  }

  /** Joining the pieces of a split with the separator gives back the string. */
  lemma {:induction false} JoinSplit(s: string, sep: char)
    ensures Join(SplitOn(s, {sep}), sep) == s
    decreases |s|
  {
    match IndexOfAny(s, {sep})
    case None =>
    case Some(i) =>
      var rest := SplitOn(s[i + 1..], {sep});
      JoinSplit(s[i + 1..], sep);
      assert ([s[..i]] + rest)[1..] == rest;
      assert s == s[..i] + [sep] + s[i + 1..];
  }

  /** A separator preceded only by other characters is where the split cuts. */
  lemma {:induction false} FirstSeparator(x: string, s: string, seps: set<char>)
    requires forall k :: 0 <= k < |x| ==> x[k] !in seps
    requires |s| > 0 && s[0] in seps
    ensures IndexOfAny(x + s, seps) == Some(|x|)
  {
    if |x| == 0 {
      assert x + s == s;
    } else {
      FirstSeparator(x[1..], s, seps);
      assert (x + s)[1..] == x[1..] + s;
    }
  }

  /** A split cuts at the first separator: the piece before it, then the split of the rest. */
  lemma SplitCut(x: string, c: char, rest: string, seps: set<char>)
    requires forall k :: 0 <= k < |x| ==> x[k] !in seps
    requires c in seps
    ensures SplitOn(x + [c] + rest, seps) == [x] + SplitOn(rest, seps)
  {
    var s := x + [c] + rest;
    assert s == x + ([c] + rest);
    FirstSeparator(x, [c] + rest, seps);
    assert s[..|x|] == x && s[|x| + 1..] == rest;
  }

  /** A separator character between two strings splits them apart: the
      pieces of the whole are the pieces of each side. */
  lemma {:induction false} SplitAtSeparator(x: string, c: char, y: string, seps: set<char>)
    requires c in seps
    ensures SplitOn(x + [c] + y, seps) == SplitOn(x, seps) + SplitOn(y, seps)
    decreases |x|
  {
    match IndexOfAny(x, seps)
    case None =>
      SplitCut(x, c, y, seps);
    case Some(i) =>
      var front, rest := x[..i], x[i + 1..];
      assert x + [c] + y == front + [x[i]] + (rest + [c] + y);
      assert forall k :: 0 <= k < |front| ==> front[k] !in seps;
      SplitCut(front, x[i], rest + [c] + y, seps);
      SplitAtSeparator(rest, c, y, seps);
      AppendAssoc([front], SplitOn(rest, seps), SplitOn(y, seps));
  }

  /** Splitting a join of pieces that hold no separator character gives back the pieces. */
  lemma {:induction false} SplitJoin(pieces: seq<string>, sep: char, seps: set<char>)
    requires |pieces| >= 1 && sep in seps
    requires forall i, k :: 0 <= i < |pieces| && 0 <= k < |pieces[i]| ==> pieces[i][k] !in seps
    ensures SplitOn(Join(pieces, sep), seps) == pieces
  {
    var p := pieces[0];
    assert forall k :: 0 <= k < |p| ==> p[k] !in seps;
    if |pieces| == 1 {
      assert IndexOfAny(p, seps).None?;
    } else {
      SplitJoin(pieces[1..], sep, seps);
      SplitCut(p, sep, Join(pieces[1..], sep), seps);
      HeadTail(pieces);
    }
  }

  /** A character that is neither the separator nor in any piece is not in the join. */
  lemma {:induction false} JoinAvoids(pieces: seq<string>, sep: char, c: char)
    requires c != sep
    requires forall i :: 0 <= i < |pieces| ==> c !in pieces[i]
    ensures c !in Join(pieces, sep)
  {
    if |pieces| > 1 {
      JoinAvoids(pieces[1..], sep, c);
    }
  }

  /** Replacing a character that does not occur changes nothing. */
  lemma ReplaceAbsent(s: string, from: char, to: char)
    requires from !in s
    ensures ReplaceChar(s, from, to) == s
  {
    assert forall i :: 0 <= i < |s| ==> s[i] != from;
  }

  /** `s.replace(/from/g, to)`. */
  function ReplaceChar(s: string, from: char, to: char): (r: string)
    ensures |r| == |s|
    ensures from != to ==> from !in r
    ensures forall i :: 0 <= i < |s| && s[i] == from ==> r[i] == to
    ensures forall i :: 0 <= i < |s| && s[i] != from ==> r[i] == s[i]
  {
    seq(|s|, i requires 0 <= i < |s| => if s[i] == from then to else s[i])
  }

  /** Replacing works character by character, so it distributes over concatenation. */
  lemma ReplaceCharAppend(a: string, b: string, from: char, to: char)
    ensures ReplaceChar(a + b, from, to) == ReplaceChar(a, from, to) + ReplaceChar(b, from, to)
  {
  }

  /** `pieces.map(s => s.trim()).filter(s => s !== "")`. */
  function NonEmptyTrimmed(pieces: seq<string>): (r: seq<string>)
    ensures |r| <= |pieces|
    ensures forall i :: 0 <= i < |r| ==> r[i] != "" && Trimmed(r[i])
  {
    if |pieces| == 0 then []
    else
      var t := Trim(pieces[0]);
      if t == "" then NonEmptyTrimmed(pieces[1..]) else [t] + NonEmptyTrimmed(pieces[1..])
  }

  /** Trimming and dropping empty pieces works piece by piece. */
  lemma {:induction false} NonEmptyTrimmedAppend(p: seq<string>, q: seq<string>)
    ensures NonEmptyTrimmed(p + q) == NonEmptyTrimmed(p) + NonEmptyTrimmed(q)
  {
    if |p| == 0 {
      EmptyAppend(q);
      EmptyAppend(NonEmptyTrimmed(q));
    } else {
      NonEmptyTrimmedAppend(p[1..], q);
      assert (p + q)[0] == p[0] && (p + q)[1..] == p[1..] + q;
      var t := Trim(p[0]);
      if t != "" {
        AppendAssoc([t], NonEmptyTrimmed(p[1..]), NonEmptyTrimmed(q));
      }
    }
  }

  /** Pieces that are already non-empty and trimmed pass through unchanged. */
  lemma {:induction false} NonEmptyTrimmedOfClean(pieces: seq<string>)
    requires forall i :: 0 <= i < |pieces| ==> pieces[i] != "" && Trimmed(pieces[i])
    ensures NonEmptyTrimmed(pieces) == pieces
  {
    if |pieces| > 0 {
      var p, rest := pieces[0], pieces[1..];
      NonEmptyTrimmedOfClean(rest);
      TrimOfTrimmed(p);
      HeadTail(pieces);
    }
  }

  /** Joining trimmed pieces with a separator that is not white space gives a trimmed string. */
  lemma {:induction false} JoinTrimmed(pieces: seq<string>, sep: char)
    requires !IsWhite(sep)
    requires forall i :: 0 <= i < |pieces| ==> Trimmed(pieces[i])
    ensures Trimmed(Join(pieces, sep))
  {
    if |pieces| > 1 {
      var p, rest := pieces[0], Join(pieces[1..], sep);
      JoinTrimmed(pieces[1..], sep);
      var j := p + [sep] + rest;
      assert Join(pieces, sep) == j;
      if p != [] { assert j[0] == p[0]; } else { assert j[0] == sep; }
      if rest != [] { assert j[|j| - 1] == rest[|rest| - 1]; } else { assert j[|j| - 1] == sep; }
    }
  }

  /** A join is at least as long as its first piece. */
  lemma JoinHead(pieces: seq<string>, sep: char)
    requires |pieces| >= 1
    ensures |Join(pieces, sep)| >= |pieces[0]|
  {
  }
}
