/** `TastytradeHelper.is_symbol_cash_settled`: a symbol is cash settled when
    its first whitespace-separated token starts with one of the index roots
    in `CashSettledSymbols`. */
module CashSettled {
  import opened Outcomes

  /** `CASH_SETTLED_SYMBOLS`. */
  const CashSettledSymbols: seq<string> := ["SPXW", "SPX", "VIXW"]

  /** The characters Python's `str.split()` treats as whitespace. */
  predicate IsSpace(c: char)
  {
    c == ' ' || '\t' <= c <= '\r' || '\U{1C}' <= c <= '\U{1F}' || c == '\U{85}' || c == '\U{A0}' ||
    c == '\U{1680}' || '\U{2000}' <= c <= '\U{200A}' || c == '\U{2028}' || c == '\U{2029}' ||
    c == '\U{202F}' || c == '\U{205F}' || c == '\U{3000}'
  }

  /** `s` with its leading whitespace removed. */
  function SkipSpace(s: string): (r: string)
    ensures |r| <= |s| && r == s[|s| - |r|..]
    ensures forall i :: 0 <= i < |s| - |r| ==> IsSpace(s[i])
    ensures r != [] ==> !IsSpace(r[0])
  {
    if s == [] || !IsSpace(s[0]) then s
    else SkipSpace(s[1..])
  }

  /** The longest prefix of `s` without whitespace. */
  function TakeWord(s: string): (r: string)
    ensures |r| <= |s| && r == s[..|r|]
    ensures forall i :: 0 <= i < |r| ==> !IsSpace(r[i])
    ensures |r| < |s| ==> IsSpace(s[|r|])
  {
    if s == [] || IsSpace(s[0]) then []
    else [s[0]] + TakeWord(s[1..])
  }

  /** `symbol.split()[0]`, or nothing when the symbol is empty or all
      whitespace (where the program raises IndexError). */
  function FirstToken(symbol: string): (r: Option<string>)
    ensures r.None? <==> forall i :: 0 <= i < |symbol| ==> IsSpace(symbol[i])
    ensures r.Some? ==> r.value != [] && forall i :: 0 <= i < |r.value| ==> !IsSpace(r.value[i])
  {
    var rest := SkipSpace(symbol);
    if rest == [] then None
    else
      assert symbol[|symbol| - |rest|] == rest[0];
      Some(TakeWord(rest))
  }

  /** `s.startswith(prefix)`. */
  predicate StartsWith(s: string, prefix: string)
  {
    |prefix| <= |s| && s[..|prefix|] == prefix
  }

  /** `any(s.startswith(p) for p in prefixes)`. */
  function AnyPrefix(s: string, prefixes: seq<string>): (r: bool)
    ensures r <==> exists i :: 0 <= i < |prefixes| && StartsWith(s, prefixes[i])
  {
    if prefixes == [] then false
    else StartsWith(s, prefixes[0]) || AnyPrefix(s, prefixes[1..])
  }

  /** `is_symbol_cash_settled(symbol)`. */
  function IsSymbolCashSettled(symbol: string): (r: Result<bool>)
    ensures r.Err? <==> forall i :: 0 <= i < |symbol| ==> IsSpace(symbol[i])
    ensures r.Err? ==> r.error == NoToken
    ensures r.Ok? ==> (r.value <==> exists p :: p in CashSettledSymbols && StartsWith(FirstToken(symbol).value, p))
  {
    match FirstToken(symbol)
    case None => Err(NoToken)
    case Some(core) => Ok(AnyPrefix(core, CashSettledSymbols))
  }

  /** Only the first token counts: whatever follows a run of whitespace after
      it, such as the expiry and strike of an option symbol, is ignored. */
  lemma {:induction false} OnlyFirstTokenMatters(word: string, sep: char, rest: string)
    requires word != [] && (forall i :: 0 <= i < |word| ==> !IsSpace(word[i])) && IsSpace(sep)
    ensures IsSymbolCashSettled(word + [sep] + rest) == IsSymbolCashSettled(word)
  {
    WordFirst(word, [sep] + rest);
    WordFirst(word, []);
    assert word + [sep] + rest == word + ([sep] + rest);
    assert word + [] == word;
  }

  /** A leading word without whitespace, followed by nothing or by whitespace,
      is the first token. */
  lemma {:induction false} WordFirst(word: string, tail: string)
    requires word != [] && forall i :: 0 <= i < |word| ==> !IsSpace(word[i])
    requires tail == [] || IsSpace(tail[0])
    ensures FirstToken(word + tail) == Some(word)
  {
    var s := word + tail;
    assert s[0] == word[0];
    assert SkipSpace(s) == s;
    TakeWordOf(word, tail);
  }

  /** Leading whitespace does not change the first token: with `WordFirst`,
      the token is the word that follows the leading run of whitespace. */
  lemma {:induction false} LeadingSpaceIgnored(lead: string, s: string)
    requires forall i :: 0 <= i < |lead| ==> IsSpace(lead[i])
    ensures FirstToken(lead + s) == FirstToken(s)
    ensures IsSymbolCashSettled(lead + s) == IsSymbolCashSettled(s)
    decreases |lead|
  {
    if lead == [] {
      assert lead + s == s;
    } else {
      assert (lead + s)[0] == lead[0];
      assert (lead + s)[1..] == lead[1..] + s;
      LeadingSpaceIgnored(lead[1..], s);
    }
  }

  lemma {:induction false} TakeWordOf(word: string, tail: string)
    requires forall i :: 0 <= i < |word| ==> !IsSpace(word[i])
    requires tail == [] || IsSpace(tail[0])
    ensures TakeWord(word + tail) == word
    decreases |word|
  {
    if word == [] {
      assert word + tail == tail;
    } else {
      assert (word + tail)[0] == word[0];
      assert (word + tail)[1..] == word[1..] + tail;
      TakeWordOf(word[1..], tail);
    }
  }

  /** The unit tests' expectations: the plain index roots are cash settled. */
  lemma RootsAreCashSettled()
    ensures IsSymbolCashSettled("SPX") == Ok(true)
    ensures IsSymbolCashSettled("VIXW") == Ok(true)
  {
    WordFirst("SPX", []);
    WordFirst("VIXW", []);
    assert "SPX" + [] == "SPX" && "VIXW" + [] == "VIXW";
    assert StartsWith("SPX", CashSettledSymbols[1]) && StartsWith("VIXW", CashSettledSymbols[2]);
  }

  /** The unit tests' expectation for a weekly SPX option symbol. */
  lemma OptionSymbolIsCashSettled()
    ensures IsSymbolCashSettled("SPXW  240919C05710000") == Ok(true)
  {
    assert "SPXW  240919C05710000" == "SPXW" + "  240919C05710000";
    WordFirst("SPXW", "  240919C05710000");
    assert StartsWith("SPXW", CashSettledSymbols[0]);
  }

  /** A first token that starts with neither 'S' nor 'V' has none of the
      index roots as a prefix. */
  lemma NoRootPrefix(word: string)
    requires word != [] && word[0] != 'S' && word[0] != 'V'
    ensures !AnyPrefix(word, CashSettledSymbols)
  {
    forall i | 0 <= i < |CashSettledSymbols|
      ensures !StartsWith(word, CashSettledSymbols[i])
    {
      var root := CashSettledSymbols[i];
      assert root[0] == 'S' || root[0] == 'V';
    }
  }

  /** The unit tests' expectation for an ordinary stock. */
  lemma StockIsNotCashSettled()
    ensures IsSymbolCashSettled("AAPL") == Ok(false)
  {
    var word := "AAPL";
    WordFirst(word, []);
    assert word + [] == word;
    NoRootPrefix(word);
  }





  /** A symbol made only of whitespace, the empty one included, has no first
      token: the program's IndexError. */
  lemma BlankHasNoToken(symbol: string)
    requires forall i :: 0 <= i < |symbol| ==> IsSpace(symbol[i])
    ensures IsSymbolCashSettled(symbol) == Err(NoToken)
  {
  }

  /** The empty symbol and a symbol of blanks and a tab have no first token. */
  lemma NoTokenSymbols()
    ensures IsSymbolCashSettled("") == Err(NoToken)
    ensures IsSymbolCashSettled(" \t ") == Err(NoToken)
  {
    BlankHasNoToken("");
    var blank := " \t ";
    forall i | 0 <= i < |blank|
      ensures IsSpace(blank[i])
    {
      assert blank[i] == ' ' || blank[i] == '\t';
    }
    BlankHasNoToken(blank);
  }
}
