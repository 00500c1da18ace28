/** The string rewrites that several exchange clients spell out identically
    in their candidate generators and link builders. */
module Symbols {
  import opened PyStr

  /** `s.strip().upper().replace(" ", "").replace("-", "").replace("/", "")`,
      the normalisation of the Binance, Bybit, MEXC and Bitget generators. */
  function Squash(input: string): string {
    Replace(Replace(Replace(Upper(Strip(input)), " ", ""), "-", ""), "/", "")
  }

  /** A squashed string has no lower-case letter and none of the deleted
      separators. */
  lemma SquashClean(input: string)
    ensures NoLower(Squash(input))
    ensures ' ' !in Squash(input) && '-' !in Squash(input) && '/' !in Squash(input)
  {
    var s1 := Upper(Strip(input));
    UpperKeeps(Strip(input), ' ');
    var s2 := Replace(s1, " ", "");
    ReplaceCharNoLower(s1, ' ', "");
    ReplaceCharGone(s1, ' ', "");
    var s3 := Replace(s2, "-", "");
    ReplaceCharNoLower(s2, '-', "");
    ReplaceCharKeeps(s2, '-', "", ' ');
    ReplaceCharGone(s2, '-', "");
    var s4 := Replace(s3, "/", "");
    ReplaceCharNoLower(s3, '/', "");
    ReplaceCharKeeps(s3, '/', "", ' ');
    ReplaceCharKeeps(s3, '/', "", '-');
    ReplaceCharGone(s3, '/', "");
  }

  /** `s if s.endswith("USDT") else s + "USDT"` */
  function WithQuote(s: string): (r: string)
    ensures EndsWith(r, "USDT")
    ensures r == s <==> EndsWith(s, "USDT")
    ensures r != s ==> r == s + "USDT"
  {
    if EndsWith(s, "USDT") then s else s + "USDT"
  }

  lemma QuoteKeepsNoLower(s: string)
    requires NoLower(s)
    ensures NoLower(s + "USDT") && NoLower(WithQuote(s))
  {
    var c := s + "USDT";
    forall i | |s| <= i < |c| ensures !IsLower(c[i]) {
      assert c[i] == "USDT"[i - |s|];
    }
  }

  /** Appending the quote adds no lower-case letter, space, `-` or `/`. */
  lemma QuoteClean(s: string)
    requires NoLower(s) && ' ' !in s && '-' !in s && '/' !in s
    ensures var c := WithQuote(s);
      NoLower(c) && ' ' !in c && '-' !in c && '/' !in c
  {
    var c := s + "USDT";
    forall i | 0 <= i < |c| ensures !IsLower(c[i]) && c[i] != ' ' && c[i] != '-' && c[i] != '/' {
      if i < |s| { assert c[i] == s[i]; } else { assert c[i] == "USDT"[i - |s|]; }
    }
  }

  /** `s[:-4] if s.endswith("USDT") else s`: one trailing `USDT` dropped. */
  function DropQuote(s: string): (r: string)
    ensures EndsWith(s, "USDT") ==> r + "USDT" == s
    ensures !EndsWith(s, "USDT") ==> r == s
  {
    if EndsWith(s, "USDT") then DropEnd(s, 4) else s
  }

  /** Dropping one trailing `USDT` and appending it again is the same as
      appending it only when it is missing. */
  lemma DropThenQuote(s: string)
    ensures DropQuote(s) + "USDT" == WithQuote(s)
  {
  }

  /** `symbol.upper().replace("USDT", "")`: the base a link is built from. */
  function LinkBase(symbol: string): string {
    Replace(Upper(symbol), "USDT", "")
  }

  /** For a candidate `b + "USDT"` whose base has no lower-case letter and no
      `USDT`, the link base is `b` again. */
  lemma LinkBaseOf(b: string)
    requires NoLower(b) && !Contains(b, "USDT")
    ensures LinkBase(b + "USDT") == b
  {
    QuoteKeepsNoLower(b);
    UpperIdentity(b + "USDT");
    ReplaceQuoteSuffix(b, "");
    assert b + [] == b;
  }
}
