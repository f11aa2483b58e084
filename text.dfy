/**
 * The Python string operations the chatbot relies on, on `seq<char>`:
 * `str.lower`, `str.strip`, `str.split()`, `str.split(sep)`, `sep.join` and the
 * substring search that a regular expression made only of literal alternatives
 * performs.
 */
module Text {

  /** The characters Python's `str.isspace` accepts: what `split()` and `strip()` remove. */
  const Whitespace: set<char> := {
    ' ', '\t', '\n', '\r', '\U{0B}', '\U{0C}', '\U{1C}', '\U{1D}', '\U{1E}', '\U{1F}',
    '\U{85}', '\U{A0}', '\U{1680}', '\U{2000}', '\U{2001}', '\U{2002}', '\U{2003}',
    '\U{2004}', '\U{2005}', '\U{2006}', '\U{2007}', '\U{2008}', '\U{2009}', '\U{200A}',
    '\U{2028}', '\U{2029}', '\U{202F}', '\U{205F}', '\U{3000}'
  }

  // ---------------------------------------------------------------------------
  // Lower case

  /**
   * `str.lower` on one character, for the scripts the chatbot sees: ASCII, the
   * Latin-1 capitals, the Latin Extended-A pairs up to U+012F (which hold Ă/ă, Đ/đ
   * and Ĩ/ĩ), Ũ/ũ, Ơ/ơ, Ư/ư and the Vietnamese block U+1EA0..U+1EF9, where each
   * capital is the even code point of a pair.
   */
  function LowerChar(c: char): char
  {
    if 'A' <= c <= 'Z' then (c as int + 32) as char
    else if '\U{C0}' <= c <= '\U{DE}' && c != '\U{D7}' then (c as int + 32) as char
    else if '\U{100}' <= c <= '\U{12F}' && c as int % 2 == 0 then (c as int + 1) as char
    else if c == '\U{168}' || c == '\U{1A0}' || c == '\U{1AF}' then (c as int + 1) as char
    else if '\U{1EA0}' <= c <= '\U{1EF9}' && c as int % 2 == 0 then (c as int + 1) as char
    else c
  }

  /** `s.lower()`, character by character. */
  function Lower(s: string): (r: string)
    ensures |r| == |s|
  {
    seq(|s|, i requires 0 <= i < |s| => LowerChar(s[i]))
  }

  /** Lowering a character that is already lowered changes nothing. */
  lemma LowerCharIdempotent(c: char)
    ensures LowerChar(LowerChar(c)) == LowerChar(c)
  {
  }

  /** Every character of a lowered string is its own lower case. */
  lemma LowerIsLower(s: string)
    ensures forall i :: 0 <= i < |s| ==> LowerChar(Lower(s)[i]) == Lower(s)[i]
  {
    forall i | 0 <= i < |s|
      ensures LowerChar(Lower(s)[i]) == Lower(s)[i]
    {
      LowerCharIdempotent(s[i]);
    }
  }

  /** `s.lower().lower() == s.lower()`. */
  lemma LowerIdempotent(s: string)
    ensures Lower(Lower(s)) == Lower(s)
  {
    forall i | 0 <= i < |s|
      ensures Lower(Lower(s))[i] == Lower(s)[i]
    {
      LowerCharIdempotent(s[i]);
    }
  }

  // ---------------------------------------------------------------------------
  // strip

  /** Where `s.lstrip(cs)` starts: the number of leading characters in `cs`. */
  function LeftEnd(s: string, cs: set<char>): (i: nat)
    ensures i <= |s| && (i < |s| ==> s[i] !in cs)
    ensures forall k :: 0 <= k < i ==> s[k] in cs
  {
    if s != [] && s[0] in cs then
      assert forall k :: 1 <= k <= LeftEnd(s[1..], cs) ==> s[k] == s[1..][k - 1];
      1 + LeftEnd(s[1..], cs)
    else 0
  }

  /** Where `s.rstrip(cs)` ends: the length left after the trailing characters in `cs`. */
  function RightEnd(s: string, cs: set<char>): (j: nat)
    ensures j <= |s| && (j > 0 ==> s[j - 1] !in cs)
    ensures forall k :: j <= k < |s| ==> s[k] in cs
  {
    if s != [] && s[|s| - 1] in cs then RightEnd(s[..|s| - 1], cs) else |s|
  }

  /**
   * `s.strip(cs)`: `s` without its leading and trailing characters of `cs`; nothing
   * is left when every character is in `cs`.
   */
  function Strip(s: string, cs: set<char>): (t: string)
    ensures |t| <= |s|
    ensures t != [] ==> t[0] !in cs && t[|t| - 1] !in cs
  {
    if LeftEnd(s, cs) < RightEnd(s, cs) then s[LeftEnd(s, cs)..RightEnd(s, cs)] else []
  }

  /**
   * The strip of `s` is the slice of `s` that starts where the leading characters of
   * `cs` stop, and only characters of `cs` are cut off on either side.
   */
  lemma StripSpec(s: string, cs: set<char>)
    ensures var i := LeftEnd(s, cs);
      var t := Strip(s, cs);
      i + |t| <= |s| && t == s[i..i + |t|]
      && (forall k :: 0 <= k < i ==> s[k] in cs)
      && (forall k :: i + |t| <= k < |s| ==> s[k] in cs)
  {
  }

  /** Stripping keeps every property the characters of its input share. */
  lemma StripKeeps(s: string, cs: set<char>, p: char -> bool)
    requires forall i :: 0 <= i < |s| ==> p(s[i])
    ensures forall i :: 0 <= i < |Strip(s, cs)| ==> p(Strip(s, cs)[i])
  {
    var t := Strip(s, cs);
    var j := LeftEnd(s, cs);
    StripSpec(s, cs);
    forall i | 0 <= i < |t|
      ensures p(t[i])
    {
      assert t[i] == s[j + i];
    }
  }

  /**
   * What is left of `s` after its first `n` characters, stripped, is the piece of `s`
   * that starts at the first character after them outside `cs`; only characters of
   * `cs` lie between the `n` characters and it, and after it.
   */
  lemma StripAfter(s: string, n: nat, cs: set<char>)
    requires n <= |s|
    ensures var r := Strip(s[n..], cs);
      var j := LeftEnd(s[n..], cs);
      n + j + |r| <= |s| && r == s[n + j..n + j + |r|]
      && (forall k :: n <= k < n + j ==> s[k] in cs)
      && (forall k :: n + j + |r| <= k < |s| ==> s[k] in cs)
  {
    var rest := s[n..];
    var r := Strip(rest, cs);
    var j := LeftEnd(rest, cs);
    StripSpec(rest, cs);
    assert rest[j..j + |r|] == s[n + j..n + j + |r|];
    forall k | n <= k < |s|
      ensures s[k] == rest[k - n]
    {
    }
  }

  /** A string that neither starts nor ends with a character of `cs` is its own strip. */
  lemma StripNoop(s: string, cs: set<char>)
    requires s != [] ==> s[0] !in cs && s[|s| - 1] !in cs
    ensures Strip(s, cs) == s
  {
  }

  // ---------------------------------------------------------------------------
  // split() and join

  /** A token of `str.split()`: non-empty, without whitespace. */
  predicate IsWord(w: string)
  {
    |w| > 0 && forall i :: 0 <= i < |w| ==> w[i] !in Whitespace
  }

  /** The longest prefix of `s` without whitespace. */
  function TakeWord(s: string): (w: string)
    ensures |w| <= |s|
    ensures s != [] && s[0] !in Whitespace ==> |w| > 0
  {
    if s == [] || s[0] in Whitespace then [] else [s[0]] + TakeWord(s[1..])
  }

  /** `TakeWord(s)` is a whitespace-free prefix of `s` that stops at whitespace or at the end. */
  lemma {:induction false} TakeWordSpec(s: string)
    ensures TakeWord(s) == s[..|TakeWord(s)|]
    ensures forall i :: 0 <= i < |TakeWord(s)| ==> TakeWord(s)[i] !in Whitespace
    ensures |TakeWord(s)| < |s| ==> s[|TakeWord(s)|] in Whitespace
  {
    if s != [] && s[0] !in Whitespace {
      TakeWordSpec(s[1..]);
    }
  }

  /** `s.split()`: the maximal runs of non-whitespace characters, in order. */
  function Words(s: string): seq<string>
    decreases |s|
  {
    if s == [] then []
    else if s[0] in Whitespace then Words(s[1..])
    else
      var w := TakeWord(s);
      [w] + Words(s[|w|..])
  }

  /** `sep.join(ws)`. */
  function Join(ws: seq<string>, sep: string): string
  {
    if ws == [] then ""
    else if |ws| == 1 then ws[0]
    else ws[0] + sep + Join(ws[1..], sep)
  }

  /** Every token of `s.split()` is a word. */
  lemma {:induction false} WordsAreWords(s: string)
    ensures forall k :: 0 <= k < |Words(s)| ==> IsWord(Words(s)[k])
    decreases |s|
  {
    if s != [] && s[0] in Whitespace {
      WordsAreWords(s[1..]);
    } else if s != [] {
      var w := TakeWord(s);
      TakeWordSpec(s);
      WordsAreWords(s[|w|..]);
    }
  }

  /** A word followed by a string that starts with whitespace is split off as the first token. */
  lemma TakeWordPrefix(w: string, rest: string)
    requires IsWord(w)
    requires rest == [] || rest[0] in Whitespace
    ensures TakeWord(w + rest) == w
  {
    var s := w + rest;
    TakeWordSpec(s);
    assert forall i :: 0 <= i < |w| ==> s[i] == w[i];
    assert |w| < |s| ==> s[|w|] == rest[0];
  }

  /** A word followed by whitespace is split off as the first token. */
  lemma WordsCons(w: string, tail: string)
    requires IsWord(w)
    requires tail == [] || tail[0] in Whitespace
    ensures Words(w + tail) == [w] + Words(tail)
  {
    var s := w + tail;
    assert s[0] == w[0];
    TakeWordPrefix(w, tail);
    assert s[|w|..] == tail;
  }

  /** A single word splits into itself. */
  lemma WordsOfWord(w: string)
    requires IsWord(w)
    ensures Words(w) == [w]
  {
    WordsCons(w, []);
    assert w + [] == w;
  }

  /** Joining words with one space and splitting again gives the words back. */
  lemma {:induction false} JoinWordsRoundTrip(ws: seq<string>)
    requires forall k :: 0 <= k < |ws| ==> IsWord(ws[k])
    ensures Words(Join(ws, " ")) == ws
  {
    if |ws| == 1 {
      WordsOfWord(ws[0]);
    } else if |ws| > 1 {
      var w := ws[0];
      var rest := Join(ws[1..], " ");
      var tail := [' '] + rest;
      JoinWordsRoundTrip(ws[1..]);
      assert Join(ws, " ") == w + tail;
      WordsCons(w, tail);
      assert tail[1..] == rest;
      assert [w] + ws[1..] == ws;
    }
  }

  /**
   * The only whitespace in `s` is the plain space, which never comes first, last
   * or twice in a row.
   */
  predicate SingleSpaced(s: string)
  {
    forall i :: 0 <= i < |s| && s[i] in Whitespace ==>
      s[i] == ' ' && 0 < i < |s| - 1 && s[i + 1] !in Whitespace
  }

  /** Words joined with one space are single-spaced. */
  lemma {:induction false} JoinSingleSpaced(ws: seq<string>)
    requires forall k :: 0 <= k < |ws| ==> IsWord(ws[k])
    ensures SingleSpaced(Join(ws, " "))
    ensures ws != [] ==> Join(ws, " ") != [] && Join(ws, " ")[0] !in Whitespace
  {
    if |ws| > 1 {
      var w := ws[0];
      var rest := Join(ws[1..], " ");
      JoinSingleSpaced(ws[1..]);
      var s := Join(ws, " ");
      assert s == w + " " + rest;
      forall i | 0 <= i < |s| && s[i] in Whitespace
        ensures s[i] == ' ' && 0 < i < |s| - 1 && s[i + 1] !in Whitespace
      {
        assert forall j :: 0 <= j < |w| ==> s[j] == w[j];
        if i == |w| {
          assert s[i + 1] == rest[0];
        } else if i > |w| {
          assert s[i] == rest[i - |w| - 1];
        }
      }
    }
  }

  /** Splitting keeps every property its input's characters share. */
  lemma {:induction false} WordsKeep(s: string, p: char -> bool)
    requires forall i :: 0 <= i < |s| ==> p(s[i])
    ensures forall k, i :: 0 <= k < |Words(s)| && 0 <= i < |Words(s)[k]| ==> p(Words(s)[k][i])
    decreases |s|
  {
    if s != [] && s[0] in Whitespace {
      WordsKeep(s[1..], p);
    } else if s != [] {
      var w := TakeWord(s);
      TakeWordSpec(s);
      WordsKeep(s[|w|..], p);
    }
  }

  /** Joining keeps every property the words' and the separator's characters share. */
  lemma {:induction false} JoinKeeps(ws: seq<string>, sep: string, p: char -> bool)
    requires forall k, i :: 0 <= k < |ws| && 0 <= i < |ws[k]| ==> p(ws[k][i])
    requires forall c :: c in sep ==> p(c)
    ensures forall c :: c in Join(ws, sep) ==> p(c)
  {
    if |ws| > 1 {
      JoinKeeps(ws[1..], sep, p);
      var s := Join(ws, sep);
      forall c | c in s
        ensures p(c)
      {
        var j :| 0 <= j < |s| && s[j] == c;
        if j < |ws[0]| {
          assert ws[0][j] == c;
        } else if j < |ws[0]| + |sep| {
          assert sep[j - |ws[0]|] == c;
        } else {
          assert Join(ws[1..], sep)[j - |ws[0]| - |sep|] == c;
        }
      }
    } else if |ws| == 1 {
      forall c | c in Join(ws, sep)
        ensures p(c)
      {
        var j :| 0 <= j < |ws[0]| && ws[0][j] == c;
      }
    }
  }

  // ---------------------------------------------------------------------------
  // split(sep)

  /** `s.split(c)` for a one-character separator: always at least one part. */
  function SplitOn(s: string, c: char): (parts: seq<string>)
    ensures |parts| >= 1
  {
    if s == [] then [""]
    else
      var rest := SplitOn(s[1..], c);
      if s[0] == c then [""] + rest else [[s[0]] + rest[0]] + rest[1..]
  }

  /** A separator-free prefix glues onto the first part of what follows it. */
  lemma {:induction false} SplitOnGlue(p: string, s: string, c: char)
    requires c !in p
    ensures SplitOn(p + s, c) == [p + SplitOn(s, c)[0]] + SplitOn(s, c)[1..]
  {
    if p != [] {
      var tail := SplitOn(s, c);
      SplitOnGlue(p[1..], s, c);
      assert (p + s)[1..] == p[1..] + s;
      var rest := SplitOn(p[1..] + s, c);
      assert rest == [p[1..] + tail[0]] + tail[1..];
      assert SplitOn(p + s, c) == [[p[0]] + rest[0]] + rest[1..];
      assert [p[0]] + (p[1..] + tail[0]) == p + tail[0];
    } else {
      var tail := SplitOn(s, c);
      assert p + s == s;
      assert p + tail[0] == tail[0];
      assert tail == [tail[0]] + tail[1..];
    }
  }

  /** Splitting a join at its separator recovers the parts, when no part holds the separator. */
  lemma {:induction false} SplitJoinRoundTrip(parts: seq<string>, c: char)
    requires |parts| >= 1
    requires forall k :: 0 <= k < |parts| ==> c !in parts[k]
    ensures SplitOn(Join(parts, [c]), c) == parts
  {
    if |parts| == 1 {
      SplitOnGlue(parts[0], [], c);
      assert parts[0] + [] == parts[0];
    } else {
      var rest := Join(parts[1..], [c]);
      SplitJoinRoundTrip(parts[1..], c);
      assert Join(parts, [c]) == parts[0] + ([c] + rest);
      assert ([c] + rest)[1..] == rest;
      assert SplitOn([c] + rest, c) == [""] + SplitOn(rest, c);
      SplitOnGlue(parts[0], [c] + rest, c);
      assert parts[0] + "" == parts[0];
      assert parts == [parts[0]] + parts[1..];
    }
  }

  // ---------------------------------------------------------------------------
  // Substring search

  /** `p in s` for strings: `p` occurs somewhere in `s`. */
  predicate IsInfix(p: string, s: string)
    decreases |s|
  {
    p <= s || (s != [] && IsInfix(p, s[1..]))
  }

  /** `IsInfix` holds exactly when `p` is a prefix of some suffix of `s`. */
  lemma {:induction false} IsInfixAt(p: string, s: string)
    ensures IsInfix(p, s) <==> exists i :: 0 <= i <= |s| && p <= s[i..]
    decreases |s|
  {
    if p <= s {
      assert s[0..] == s;
    } else if s != [] {
      assert s[0..] == s;
      IsInfixAt(p, s[1..]);
      if IsInfix(p, s[1..]) {
        var i :| 0 <= i <= |s| - 1 && p <= s[1..][i..];
        assert s[1..][i..] == s[i + 1..];
      }
      if i :| 0 <= i <= |s| && p <= s[i..] {
        assert s[1..][i - 1..] == s[i..];
      }
    } else {
      assert s[0..] == s;
    }
  }
}
