/**
 * String helpers shared by the web client and the API: whitespace trimming
 * (JavaScript `trim()`, Python `strip()`), splitting on one character,
 * joining, ASCII lower-casing, substring search and decimal rendering.
 */
module Text {

  /** The whitespace `trim()`/`strip()` remove, restricted to ASCII. */
  predicate IsSpace(c: char) {
    c == ' ' || c == '\t' || c == '\n' || c == '\r' || c == '\U{000B}' || c == '\U{000C}'
  }

  predicate IsBlank(s: string) {
    forall k :: 0 <= k < |s| ==> IsSpace(s[k])
  }

  function TrimStart(s: string): (r: string)
    ensures |r| <= |s| && r == s[|s| - |r|..]
    ensures forall k :: 0 <= k < |s| - |r| ==> IsSpace(s[k])
    ensures r != [] ==> !IsSpace(r[0])
  {
    if s != [] && IsSpace(s[0]) then TrimStart(s[1..]) else s
  }

  function TrimEnd(s: string): (r: string)
    ensures |r| <= |s| && r == s[..|r|]
    ensures forall k :: |r| <= k < |s| ==> IsSpace(s[k])
    ensures r != [] ==> !IsSpace(r[|r| - 1])
  {
    if s != [] && IsSpace(s[|s| - 1]) then TrimEnd(s[..|s| - 1]) else s
  }

  /** A piece that is not empty and not padded by whitespace. */
  predicate Unpadded(t: string) {
    t != [] && !IsSpace(t[0]) && !IsSpace(t[|t| - 1])
  }

  /**
   * `s.trim()` / `s.strip()`: the infix left after removing the whitespace
   * around it, so that it neither starts nor ends with whitespace.
   */
  function Trim(s: string): (r: string)
    ensures r != [] ==> Unpadded(r)
    ensures r == [] <==> IsBlank(s)
    ensures exists i :: Framed(s, r, i)
  {
    TrimBoth(s);
    TrimEnd(TrimStart(s))
  }

  /** `r` occurs in `s` at `i` with nothing but whitespace before and after it. */
  ghost predicate Framed(s: string, r: string, i: int) {
    OccursAt(s, r, i) && IsBlank(s[..i]) && IsBlank(s[i + |r|..])
  }

  lemma TrimBoth(s: string)
    ensures var r := TrimEnd(TrimStart(s));
      && (r == [] <==> IsBlank(s))
      && Framed(s, r, |s| - |TrimStart(s)|)
  {
    TrimMarginsBlank(s);
    TrimOccurs(s);
    TrimEmptyBlank(s);
    TrimBlankEmpty(s);
  }

  lemma TrimMarginsBlank(s: string)
    ensures IsBlank(s[..|s| - |TrimStart(s)|])
    ensures |s| - |TrimStart(s)| + |TrimEnd(TrimStart(s))| <= |s|
    ensures IsBlank(s[|s| - |TrimStart(s)| + |TrimEnd(TrimStart(s))|..])
  {
    var t := TrimStart(s);
    StartBlank(s);
    EndBlank(t);
    DropDrop(s, |s| - |t|, |TrimEnd(t)|);
  }

  lemma DropDrop(s: string, n: nat, m: nat)
    requires n + m <= |s|
    ensures s[n..][m..] == s[n + m..]
  {
  }

  lemma StartBlank(s: string)
    ensures IsBlank(s[..|s| - |TrimStart(s)|])
  {
    var u := s[..|s| - |TrimStart(s)|];
    forall k | 0 <= k < |u| ensures IsSpace(u[k]) {
      assert u[k] == s[k];
    }
  }

  lemma EndBlank(t: string)
    ensures IsBlank(t[|TrimEnd(t)|..])
  {
    var u := t[|TrimEnd(t)|..];
    forall k | 0 <= k < |u| ensures IsSpace(u[k]) {
      assert u[k] == t[|TrimEnd(t)| + k];
    }
  }

  lemma TrimOccurs(s: string)
    ensures OccursAt(s, TrimEnd(TrimStart(s)), |s| - |TrimStart(s)|)
  {
    var t := TrimStart(s);
    assert s[|s| - |t|..][..|TrimEnd(t)|] == TrimEnd(t);
  }

  lemma TrimEmptyBlank(s: string)
    ensures TrimEnd(TrimStart(s)) == [] ==> IsBlank(s)
  {
  }

  lemma TrimBlankEmpty(s: string)
    ensures IsBlank(s) ==> TrimEnd(TrimStart(s)) == []
  {
  }

  /**
   * `"\n".join(lines).strip() + "\n"`: the rendered document, trimmed and
   * ending in exactly one newline.
   */
  function Document(lines: seq<string>): (r: string)
    ensures |r| >= 1 && r[|r| - 1] == '\n'
    ensures |r| == 1 <==> IsBlank(Join(lines, "\n"))
    ensures |r| >= 2 ==> Unpadded(r[..|r| - 1])
    ensures exists t, i :: r == t + "\n" && Framed(Join(lines, "\n"), t, i)
  {
    var t := Trim(Join(lines, "\n"));
    assert (t + "\n")[..|t|] == t;
    t + "\n"
  }

  /** A string that neither starts nor ends with whitespace is its own trim. */
  lemma TrimUnpadded(s: string)
    requires Unpadded(s)
    ensures Trim(s) == s
  {
  }

  /** `s.split(sep)`: the pieces between occurrences of `sep`, at least one. */
  function Split(s: string, sep: char): (r: seq<string>)
    ensures |r| >= 1
    ensures forall i :: 0 <= i < |r| ==> sep !in r[i]
  {
    if s == [] then [""]
    else
      var rest := Split(s[1..], sep);
      if s[0] == sep then [""] + rest else [[s[0]] + rest[0]] + rest[1..]
  }

  /** `sep.join(parts)`. */
  function Join(parts: seq<string>, sep: string): string {
    if parts == [] then ""
    else if |parts| == 1 then parts[0]
    else parts[0] + sep + Join(parts[1..], sep)
  }

  /** Joining the pieces of a split with the separator gives back the input. */
  lemma {:induction false} JoinSplit(s: string, sep: char)
    ensures Join(Split(s, sep), [sep]) == s
  {
    if s != [] {
      var rest := Split(s[1..], sep);
      JoinSplit(s[1..], sep);
      if s[0] == sep {
        assert Split(s, sep) == [""] + rest;
        assert ([""] + rest)[1..] == rest;
      } else {
        var r := Split(s, sep);
        assert r == [[s[0]] + rest[0]] + rest[1..];
        if |rest| == 1 {
          assert Join(rest, [sep]) == rest[0];
        } else {
          assert r[1..] == rest[1..];
          assert Join(rest, [sep]) == rest[0] + [sep] + Join(rest[1..], [sep]);
        }
      }
    }
  }

  /** The trimmed pieces that are not empty, in order. */
  function TrimAndDropEmpty(pieces: seq<string>): (r: seq<string>)
    ensures |r| <= |pieces|
    ensures forall k :: 0 <= k < |r| ==> Unpadded(r[k])
  {
    if pieces == [] then []
    else
      var rest := TrimAndDropEmpty(pieces[..|pieces| - 1]);
      var t := Trim(pieces[|pieces| - 1]);
      if t == "" then rest else rest + [t]
  }

  /** Every kept piece is the trim of an input piece. */
  lemma {:induction false} TrimAndDropEmptyFrom(pieces: seq<string>)
    ensures forall t :: t in TrimAndDropEmpty(pieces) ==> exists p :: p in pieces && t == Trim(p)
  {
    if pieces != [] {
      var init := pieces[..|pieces| - 1];
      TrimAndDropEmptyFrom(init);
      forall t | t in TrimAndDropEmpty(pieces)
        ensures exists p :: p in pieces && t == Trim(p)
      {
        if t in TrimAndDropEmpty(init) {
          var p :| p in init && t == Trim(p);
          assert p in pieces;
        } else {
          assert t == Trim(pieces[|pieces| - 1]);
        }
      }
    }
  }

  /**
   * Comma-separated tags: `s.split(",").map(t => t.trim()).filter(Boolean)`
   * in the upload dialog, `[t.strip() for t in s.split(",") if t.strip()]`
   * in the API.
   */
  function CommaTags(s: string): (r: seq<string>)
    ensures forall k :: 0 <= k < |r| ==> Unpadded(r[k])
    ensures forall k :: 0 <= k < |r| ==> ',' !in r[k]
  {
    var pieces := Split(s, ',');
    var r := TrimAndDropEmpty(pieces);
    TrimAndDropEmptyFrom(pieces);
    forall k | 0 <= k < |r| ensures ',' !in r[k] {
      assert r[k] in r;
      var p :| p in pieces && r[k] == Trim(p);
      TrimKeepsAbsent(p, ',');
    }
    r
  }

  /** A piece without the separator, then the separator: splitting peels the piece off. */
  lemma {:induction false} SplitPeel(p: string, sep: char, t: string)
    requires sep !in p
    ensures Split(p + [sep] + t, sep) == [p] + Split(t, sep)
  {
    if p == [] {
      assert p + [sep] + t == [sep] + t;
      assert ([sep] + t)[1..] == t;
    } else {
      var s := p + [sep] + t;
      assert s[0] == p[0] && s[1..] == p[1..] + [sep] + t;
      SplitPeel(p[1..], sep, t);
      assert [p[0]] + p[1..] == p;
    }
  }

  /** A string without the separator splits into itself alone. */
  lemma {:induction false} SplitWhole(p: string, sep: char)
    requires sep !in p
    ensures Split(p, sep) == [p]
  {
    if p != [] {
      SplitWhole(p[1..], sep);
      assert [p[0]] + p[1..] == p;
    }
  }

  /** Splitting a join gives back the pieces when no piece holds the separator. */
  lemma {:induction false} SplitJoin(parts: seq<string>, sep: char)
    requires |parts| >= 1
    requires forall i :: 0 <= i < |parts| ==> sep !in parts[i]
    ensures Split(Join(parts, [sep]), sep) == parts
  {
    if |parts| == 1 {
      SplitWhole(parts[0], sep);
    } else {
      SplitJoin(parts[1..], sep);
      SplitPeel(parts[0], sep, Join(parts[1..], [sep]));
      assert parts == [parts[0]] + parts[1..];
    }
  }

  /** Pieces that are already trimmed and non-empty pass through unchanged. */
  lemma {:induction false} TrimAndDropEmptyKeeps(pieces: seq<string>)
    requires forall i :: 0 <= i < |pieces| ==> Unpadded(pieces[i])
    ensures TrimAndDropEmpty(pieces) == pieces
  {
    if pieces != [] {
      var init := pieces[..|pieces| - 1];
      var last := pieces[|pieces| - 1];
      TrimAndDropEmptyKeeps(init);
      TrimUnpadded(last);
      assert Trim(last) == last && last != "";
      assert TrimAndDropEmpty(pieces) == TrimAndDropEmpty(init) + [last];
      assert pieces == init + [last];
    }
  }

  /** A join starts with the first piece's first character and ends with the last piece's last one. */
  lemma {:induction false} JoinEnds(parts: seq<string>, sep: string)
    requires |parts| >= 1 && forall i :: 0 <= i < |parts| ==> parts[i] != []
    ensures Join(parts, sep) != []
    ensures Join(parts, sep)[0] == parts[0][0]
    ensures Join(parts, sep)[|Join(parts, sep)| - 1] == parts[|parts| - 1][|parts[|parts| - 1]| - 1]
  {
    if |parts| > 1 {
      JoinEnds(parts[1..], sep);
    }
  }

  /**
   * Comma tags round-trip: tags that are trimmed, not empty and free of
   * commas are recovered from their comma-joined text.
   */
  lemma CommaTagsOfJoin(tags: seq<string>)
    requires |tags| >= 1
    requires forall i :: 0 <= i < |tags| ==> Unpadded(tags[i]) && ',' !in tags[i]
    ensures Trim(Join(tags, ",")) == Join(tags, ",")
    ensures CommaTags(Join(tags, ",")) == tags
  {
    JoinEnds(tags, ",");
    TrimUnpadded(Join(tags, ","));
    SplitJoin(tags, ',');
    TrimAndDropEmptyKeeps(tags);
  }

  /** Trimming removes characters, it never adds one. */
  lemma TrimKeepsAbsent(p: string, c: char)
    requires c !in p
    ensures c !in Trim(p)
  {
    var t := Trim(p);
    var i :| Framed(p, t, i);
    assert OccursAt(p, t, i);
    forall j | 0 <= j < |t| ensures t[j] != c {
      assert t[j] == p[i + j];
    }
  }

  function LowerChar(c: char): (r: char)
    ensures 'A' <= c <= 'Z' ==> r as int == c as int + 32
    ensures !('A' <= c <= 'Z') ==> r == c
  {
    if 'A' <= c <= 'Z' then (c as int + 32) as char else c
  }

  function UpperChar(c: char): (r: char)
    ensures 'a' <= c <= 'z' ==> r as int == c as int - 32
    ensures !('a' <= c <= 'z') ==> r == c
  {
    if 'a' <= c <= 'z' then (c as int - 32) as char else c
  }

  predicate IsLetter(c: char) {
    'a' <= c <= 'z' || 'A' <= c <= 'Z'
  }

  /** `s.toLowerCase()` restricted to ASCII letters. */
  function Lower(s: string): (r: string)
    ensures |r| == |s|
    ensures forall i :: 0 <= i < |s| ==> r[i] == LowerChar(s[i])
  {
    seq(|s|, i requires 0 <= i < |s| => LowerChar(s[i]))
  }

  predicate IsPrefix(p: string, s: string) {
    |p| <= |s| && s[..|p|] == p
  }

  /** `s.includes(sub)`, by scanning every start position. */
  predicate Contains(s: string, sub: string)
    decreases |s|
  {
    IsPrefix(sub, s) || (s != [] && Contains(s[1..], sub))
  }

  /** `sub` occurs in `s` at position `i`. */
  ghost predicate OccursAt(s: string, sub: string, i: int) {
    0 <= i && i + |sub| <= |s| && s[i..i + |sub|] == sub
  }

  /** The scan finds `sub` exactly when it occurs somewhere in `s`. */
  lemma {:induction false} ContainsIff(s: string, sub: string)
    ensures Contains(s, sub) <==> exists i :: OccursAt(s, sub, i)
    decreases |s|
  {
    if IsPrefix(sub, s) {
      assert OccursAt(s, sub, 0);
    } else if s != [] {
      ContainsIff(s[1..], sub);
      if i :| OccursAt(s[1..], sub, i) {
        assert s[1..][i..i + |sub|] == s[i + 1..i + 1 + |sub|];
        assert OccursAt(s, sub, i + 1);
      }
      if i :| OccursAt(s, sub, i) && i > 0 {
        assert s[1..][i - 1..i - 1 + |sub|] == s[i..i + |sub|];
        assert OccursAt(s[1..], sub, i - 1);
      }
    }
  }

  function DigitChar(d: nat): (c: char)
    requires d < 10
    ensures '0' <= c <= '9' && c as int - '0' as int == d
  {
    (d + '0' as int) as char
  }

  /** The decimal rendering of `n` (Python `str(n)`, JavaScript template interpolation). */
  function NatToString(n: nat): (r: string)
    ensures |r| >= 1
    ensures forall k :: 0 <= k < |r| ==> '0' <= r[k] <= '9'
  {
    if n < 10 then [DigitChar(n)] else NatToString(n / 10) + [DigitChar(n % 10)]
  }

  /** The value of a string of decimal digits. */
  function DigitsValue(s: string): nat
    requires forall k :: 0 <= k < |s| ==> '0' <= s[k] <= '9'
  {
    if s == [] then 0 else 10 * DigitsValue(s[..|s| - 1]) + (s[|s| - 1] as int - '0' as int)
  }

  /** Rendering then reading back gives the number: the rendering is injective. */
  lemma {:induction false} NatToStringRoundTrip(n: nat)
    ensures DigitsValue(NatToString(n)) == n
  {
    if n >= 10 {
      NatToStringRoundTrip(n / 10);
      var r := NatToString(n);
      assert r[..|r| - 1] == NatToString(n / 10);
    }
  }

  lemma NatToStringInjective(m: nat, n: nat)
    requires NatToString(m) == NatToString(n)
    ensures m == n
  {
    NatToStringRoundTrip(m);
    NatToStringRoundTrip(n);
  }
}
