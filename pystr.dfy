/** ASCII models of the Python `str` operations that the symbol generators,
    link builders and token extraction are written with. Characters outside
    ASCII are not given Python's Unicode case mapping or whitespace class. */
module PyStr {

  /** `c.isspace()` for an ASCII character: tab, line feed, vertical tab,
      form feed, carriage return, the separators 0x1C-0x1F and space. */
  predicate IsSpace(c: char) {
    (9 <= c as int <= 13) || (28 <= c as int <= 32)
  }

  predicate IsLower(c: char) { 'a' <= c <= 'z' }

  predicate IsUpperLetter(c: char) { 'A' <= c <= 'Z' }

  predicate IsDigit(c: char) { '0' <= c <= '9' }

  /** The regular-expression class `[A-Z0-9]`. */
  predicate IsUpperAlnum(c: char) { IsUpperLetter(c) || IsDigit(c) }

  /** A "word" character of `\b` on an ASCII string: `[A-Za-z0-9_]`. */
  predicate IsWordChar(c: char) { IsUpperAlnum(c) || IsLower(c) || c == '_' }

  function UpperChar(c: char): (r: char)
    ensures !IsLower(r)
    ensures IsSpace(r) <==> IsSpace(c)
  {
    if IsLower(c) then (c as int - 32) as char else c
  }

  function LowerChar(c: char): (r: char)
    ensures !IsUpperLetter(r)
    ensures IsSpace(r) <==> IsSpace(c)
  {
    if IsUpperLetter(c) then (c as int + 32) as char else c
  }

  /** `s.upper()` */
  function Upper(s: string): (r: string)
    ensures |r| == |s|
    ensures forall i :: 0 <= i < |s| ==> r[i] == UpperChar(s[i])
  {
    if s == [] then [] else [UpperChar(s[0])] + Upper(s[1..])
  }

  /** `s.lower()` */
  function Lower(s: string): (r: string)
    ensures |r| == |s|
    ensures forall i :: 0 <= i < |s| ==> r[i] == LowerChar(s[i])
  {
    if s == [] then [] else [LowerChar(s[0])] + Lower(s[1..])
  }

  predicate NoLower(s: string) {
    forall i :: 0 <= i < |s| ==> !IsLower(s[i])
  }

  /** Neither end of `s` is whitespace: what `strip` leaves behind. */
  predicate Trimmed(s: string) {
    s == [] || (!IsSpace(s[0]) && !IsSpace(s[|s| - 1]))
  }

  /** `s.lstrip()`: the suffix left after the leading whitespace. */
  function LStrip(s: string): (r: string)
    ensures |r| <= |s| && r == s[|s| - |r|..]
    ensures forall i :: 0 <= i < |s| - |r| ==> IsSpace(s[i])
    ensures r == [] || !IsSpace(r[0])
  {
    if s != [] && IsSpace(s[0]) then LStrip(s[1..]) else s
  }

  /** `s.rstrip()`: the prefix left before the trailing whitespace. */
  function RStrip(s: string): (r: string)
    ensures |r| <= |s| && r == s[..|r|]
    ensures forall i :: |r| <= i < |s| ==> IsSpace(s[i])
    ensures r == [] || !IsSpace(r[|r| - 1])
  {
    if s != [] && IsSpace(s[|s| - 1]) then RStrip(s[..|s| - 1]) else s
  }

  /** `s.strip()` */
  function Strip(s: string): (r: string)
    ensures Trimmed(r)
    ensures |r| <= |s|
  {
    RStrip(LStrip(s))
  }

  lemma StripTrimmed(s: string)
    requires Trimmed(s)
    ensures Strip(s) == s
  {
  }

  predicate StartsWith(s: string, p: string) {
    |p| <= |s| && s[..|p|] == p
  }

  /** `s.endswith(p)` */
  predicate EndsWith(s: string, p: string) {
    |p| <= |s| && s[|s| - |p|..] == p
  }

  /** `sub in s` on two strings. */
  predicate Contains(s: string, sub: string)
    decreases |s|
  {
    StartsWith(s, sub) || (s != [] && Contains(s[1..], sub))
  }

  /** A one-character pattern occurs exactly where the character does. */
  lemma {:induction false} ContainsChar(s: string, c: char)
    ensures Contains(s, [c]) <==> c in s
    decreases |s|
  {
    if s != [] {
      ContainsChar(s[1..], c);
      assert s == [s[0]] + s[1..];
      assert StartsWith(s, [c]) <==> s[0] == c;
    }
  }

  /** `s[:-n]` for a positive `n`. */
  function DropEnd(s: string, n: nat): (r: string)
    requires 0 < n
    ensures |s| >= n ==> r + s[|s| - n..] == s && |r| == |s| - n
    ensures |s| < n ==> r == []
  {
    if n <= |s| then s[..|s| - n] else []
  }

  /** `s.replace("", rep)`: `rep` before every character and at the end. */
  function ReplaceEmpty(s: string, rep: string): string {
    if s == [] then rep else rep + [s[0]] + ReplaceEmpty(s[1..], rep)
  }

  /** `s.replace(pat, rep)`: every occurrence of `pat`, scanning left to right
      without overlap, becomes `rep`. */
  function Replace(s: string, pat: string, rep: string): string
    decreases |s|
  {
    if pat == [] then ReplaceEmpty(s, rep)
    else if |s| < |pat| then s
    else if s[..|pat|] == pat then rep + Replace(s[|pat|..], pat, rep)
    else [s[0]] + Replace(s[1..], pat, rep)
  }

  /** A string with no occurrence of the pattern is left as it is. */
  lemma {:induction false} ReplaceAbsent(s: string, pat: string, rep: string)
    requires pat != [] && !Contains(s, pat)
    ensures Replace(s, pat, rep) == s
    decreases |s|
  {
    if |s| >= |pat| {
      assert s[..|pat|] != pat;
      ReplaceAbsent(s[1..], pat, rep);
      assert [s[0]] + s[1..] == s;
    }
  }

  /** When `pat` does not start with a character it contains again, the
      only occurrence of `pat` in `b + pat` with `b` free of it is the suffix,
      and that is all `replace` rewrites. */
  lemma {:induction false} ReplaceSuffix(b: string, pat: string, rep: string)
    requires pat != [] && pat[0] !in pat[1..]
    requires !Contains(b, pat)
    ensures Replace(b + pat, pat, rep) == b + rep
    decreases |b|
  {
    var s := b + pat;
    if b == [] {
      assert s == pat;
      assert Replace(s, pat, rep) == rep + Replace([], pat, rep);
    } else {
      assert !StartsWith(b, pat) && !Contains(b[1..], pat);
      NoMatchAtHead(b, pat);
      var t := b[1..];
      assert s == [b[0]] + (t + pat);
      ReplaceCons(b[0], t + pat, pat, rep);
      ReplaceSuffix(t, pat, rep);
      assert [b[0]] + (t + rep) == b + rep;
    }
  }

  /** `b + pat` does not start with `pat` when `b` is non-empty and does not,
      and `pat` does not repeat its first character. */
  lemma NoMatchAtHead(b: string, pat: string)
    requires b != [] && pat != [] && pat[0] !in pat[1..]
    requires !StartsWith(b, pat)
    ensures |b + pat| >= |pat| && (b + pat)[..|pat|] != pat
  {
    var s := b + pat;
    var n := |pat|;
    if |b| >= n {
      assert s[..n] == b[..n];
    } else {
      assert s[|b|] == pat[0];
      assert pat[|b|] == pat[1..][|b| - 1];
    }
  }

  /** `replace` keeps a first character that starts no match. */
  lemma ReplaceCons(c: char, t: string, pat: string, rep: string)
    requires pat != [] && |[c] + t| >= |pat| && ([c] + t)[..|pat|] != pat
    ensures Replace([c] + t, pat, rep) == [c] + Replace(t, pat, rep)
  {
    assert ([c] + t)[1..] == t;
  }

  lemma ReplaceQuoteSuffix(b: string, rep: string)
    requires !Contains(b, "USDT")
    ensures Replace(b + "USDT", "USDT", rep) == b + rep
  {
    assert "USDT"[1..] == "SDT";
    ReplaceSuffix(b, "USDT", rep);
  }

  /** Replacing one character, as a character-by-character rewrite. */
  function MapChar(s: string, c: char, rep: string): string
    decreases |s|
  {
    if s == [] then [] else (if s[0] == c then rep else [s[0]]) + MapChar(s[1..], c, rep)
  }

  lemma {:induction false} ReplaceOneChar(s: string, c: char, rep: string)
    ensures Replace(s, [c], rep) == MapChar(s, c, rep)
    decreases |s|
  {
    if s != [] {
      assert (s[..1] == [c]) <==> (s[0] == c);
      ReplaceOneChar(s[1..], c, rep);
    }
  }

  lemma {:induction false} MapCharAppend(a: string, b: string, c: char, rep: string)
    ensures MapChar(a + b, c, rep) == MapChar(a, c, rep) + MapChar(b, c, rep)
    decreases |a|
  {
    if a != [] {
      assert (a + b)[1..] == a[1..] + b;
      MapCharAppend(a[1..], b, c, rep);
    } else {
      assert a + b == b;
    }
  }

  /** The character-level facts a one-character replacement keeps: no
      lower-case letter, no occurrence of a character absent from both sides,
      and no occurrence of the replaced character unless `rep` has it. */
  lemma {:induction false} MapCharChars(s: string, c: char, rep: string, d: char)
    ensures NoLower(s) && NoLower(rep) ==> NoLower(MapChar(s, c, rep))
    ensures d !in s && d !in rep ==> d !in MapChar(s, c, rep)
    ensures c !in rep ==> c !in MapChar(s, c, rep)
    decreases |s|
  {
    if s != [] {
      MapCharChars(s[1..], c, rep, d);
      var head := if s[0] == c then rep else [s[0]];
      assert MapChar(s, c, rep) == head + MapChar(s[1..], c, rep);
    }
  }

  /** A one-character replacement of a trimmed string stays trimmed, when it
      either deletes a whitespace character or substitutes a trimmed,
      non-empty string. */
  lemma MapCharTrimmed(s: string, c: char, rep: string)
    requires Trimmed(s) && Trimmed(rep)
    requires rep == [] ==> IsSpace(c)
    ensures Trimmed(MapChar(s, c, rep))
  {
    if s != [] {
      var n := |s| - 1;
      assert s == s[..n] + [s[n]];
      MapCharAppend(s[..n], [s[n]], c, rep);
      var last := MapChar([s[n]], c, rep);
      assert last == (if s[n] == c then rep else [s[n]]);
      var r := MapChar(s, c, rep);
      var first := if s[0] == c then rep else [s[0]];
      assert r == first + MapChar(s[1..], c, rep);
      assert first != [] && !IsSpace(first[0]);
      assert last != [] && !IsSpace(last[|last| - 1]);
      assert r[0] == first[0];
      assert r[|r| - 1] == last[|last| - 1];
    }
  }

  /** `s.replace(c, rep)` adds no lower-case letter when `rep` has none. */
  lemma ReplaceCharNoLower(s: string, c: char, rep: string)
    requires NoLower(s) && NoLower(rep)
    ensures NoLower(Replace(s, [c], rep))
  {
    ReplaceOneChar(s, c, rep);
    MapCharChars(s, c, rep, c);
  }

  /** `s.replace(c, rep)` introduces no character absent from `s` and `rep`. */
  lemma ReplaceCharKeeps(s: string, c: char, rep: string, d: char)
    requires d !in s && d !in rep
    ensures d !in Replace(s, [c], rep)
  {
    ReplaceOneChar(s, c, rep);
    MapCharChars(s, c, rep, d);
  }

  /** `s.replace(c, rep)` removes every `c` when `rep` has none. */
  lemma ReplaceCharGone(s: string, c: char, rep: string)
    requires c !in rep
    ensures c !in Replace(s, [c], rep)
  {
    ReplaceOneChar(s, c, rep);
    MapCharChars(s, c, rep, c);
  }

  /** MapCharTrimmed, stated on `s.replace(c, rep)`. */
  lemma ReplaceCharTrimmed(s: string, c: char, rep: string)
    requires Trimmed(s) && Trimmed(rep)
    requires rep == [] ==> IsSpace(c)
    ensures Trimmed(Replace(s, [c], rep))
  {
    ReplaceOneChar(s, c, rep);
    MapCharTrimmed(s, c, rep);
  }

  /** Replacing a character by itself changes nothing. */
  lemma {:induction false} MapCharSelf(s: string, c: char)
    ensures MapChar(s, c, [c]) == s
    decreases |s|
  {
    if s != [] {
      MapCharSelf(s[1..], c);
      assert [s[0]] + s[1..] == s;
    }
  }

  lemma {:induction false} MapCharAbsent(s: string, c: char, rep: string)
    requires c !in s
    ensures MapChar(s, c, rep) == s
    decreases |s|
  {
    if s != [] {
      MapCharAbsent(s[1..], c, rep);
      assert [s[0]] + s[1..] == s;
    }
  }

  lemma {:induction false} UpperIdentity(s: string)
    requires NoLower(s)
    ensures Upper(s) == s
  {
  }

  lemma UpperKeeps(s: string, d: char)
    requires !IsLower(d) && !IsUpperLetter(d)
    ensures Trimmed(s) ==> Trimmed(Upper(s))
    ensures NoLower(Upper(s))
    ensures d !in s ==> d !in Upper(s)
  {
    var u := Upper(s);
    if d in u {
      var i :| 0 <= i < |u| && u[i] == d;
      assert UpperChar(s[i]) == d;
      assert s[i] == d;
    }
  }

  /** `re.sub(r"[^A-Z0-9]", "", s)` */
  function KeepUpperAlnum(s: string): (r: string)
    ensures forall i :: 0 <= i < |r| ==> IsUpperAlnum(r[i])
    ensures |r| <= |s|
  {
    if s == [] then []
    else if IsUpperAlnum(s[0]) then [s[0]] + KeepUpperAlnum(s[1..])
    else KeepUpperAlnum(s[1..])
  }

  /** `sep.join(parts)` */
  function Join(sep: string, parts: seq<string>): string {
    if parts == [] then []
    else if |parts| == 1 then parts[0]
    else parts[0] + sep + Join(sep, parts[1..])
  }

  /** `s.split(sep)` for a one-character separator. */
  function Split(s: string, sep: char): (r: seq<string>)
    ensures |r| >= 1
    decreases |s|
  {
    if s == [] then [[]]
    else
      var rest := Split(s[1..], sep);
      if s[0] == sep then [[]] + rest
      else [[s[0]] + rest[0]] + rest[1..]
  }

  /** Joining and splitting on a character that no part contains are inverse. */
  lemma {:induction false} SplitJoin(parts: seq<string>, sep: char)
    requires parts != []
    requires forall i :: 0 <= i < |parts| ==> sep !in parts[i]
    ensures Split(Join([sep], parts), sep) == parts
    decreases |parts|
  {
    if |parts| == 1 {
      SplitNoSep(parts[0], sep);
    } else {
      SplitJoin(parts[1..], sep);
      SplitPrefix(parts[0], [sep] + Join([sep], parts[1..]), sep);
      assert parts[0] + [sep] + Join([sep], parts[1..]) == parts[0] + ([sep] + Join([sep], parts[1..]));
      assert ([sep] + Join([sep], parts[1..]))[1..] == Join([sep], parts[1..]);
      assert [parts[0]] + parts[1..] == parts;
    }
  }

  lemma {:induction false} SplitNoSep(s: string, sep: char)
    requires sep !in s
    ensures Split(s, sep) == [s]
    decreases |s|
  {
    if s != [] {
      SplitNoSep(s[1..], sep);
      assert [s[0]] + s[1..] == s;
    }
  }

  /** Splitting `w + t`, where `w` has no separator and `t` starts with one. */
  lemma {:induction false} SplitPrefix(w: string, t: string, sep: char)
    requires sep !in w && t != [] && t[0] == sep
    ensures Split(w + t, sep) == [w] + Split(t[1..], sep)
    decreases |w|
  {
    if w == [] {
      assert w + t == t;
    } else {
      assert (w + t)[1..] == w[1..] + t;
      SplitPrefix(w[1..], t, sep);
      assert [w[0]] + w[1..] == w;
    }
  }
}
