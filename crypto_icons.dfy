/** `getCryptoIcon`: the icon file for one of fourteen supported tickers, looked up
    case-insensitively, and otherwise an inline SVG of a grey circle showing the ticker's
    first letter. `encodeURIComponent` is a parameter, `encode`. */
module CryptoIcons {
  import opened Text

  const SupportedIcons: seq<string> := [
    "btc", "eth", "usdt", "usdc", "bnb", "sol",
    "xrp", "ada", "dot", "avax", "matic",
    "link", "atom", "bnx"
  ]

  const IconDirectory: string := "/assets/crypto-icons/"
  const SvgDataPrefix: string := "data:image/svg+xml,"

  /** The fallback's markup before and after the letter, whitespace as in the template literal. */
  const SvgHead: string :=
    "\n    <svg xmlns=\"http://www.w3.org/2000/svg\" width=\"32\" height=\"32\" viewBox=\"0 0 32 32\">\n"
    + "      <circle cx=\"16\" cy=\"16\" r=\"16\" fill=\"#6B7280\"/>\n"
    + "      <text x=\"16\" y=\"16\" font-family=\"Inter\" font-size=\"14\" fill=\"white\" text-anchor=\"middle\" dy=\".3em\">\n"
    + "        "
  const SvgTail: string := "\n      </text>\n    </svg>\n  "

  /** `symbol.charAt(0).toUpperCase()`: the first character upper-cased, "" for "". */
  function Initial(symbol: string): (initial: string)
    ensures symbol == [] ==> initial == []
    ensures symbol != [] ==> initial == [UpperChar(symbol[0])]
  {
    Upper(if |symbol| > 0 then symbol[..1] else "")
  }

  /** The fallback SVG with `initial` in the text element. */
  function FallbackSvg(initial: string): string
  {
    SvgHead + initial + SvgTail
  }

  /** `getCryptoIcon(symbol)`. */
  function GetCryptoIcon(symbol: string, encode: string -> string): string
  {
    var normalizedSymbol := Lower(symbol);
    if normalizedSymbol in SupportedIcons then IconDirectory + normalizedSymbol + ".svg"
    else SvgDataPrefix + encode(FallbackSvg(Initial(symbol)))
  }

  /** A supported ticker, in any case, gets exactly its lower-cased icon file; any other
      gets the data URL of the encoded fallback showing its upper-cased first letter. A
      result in the icon directory comes from a supported ticker and from nothing else. */
  lemma IconChoice(symbol: string, encode: string -> string)
    ensures Lower(symbol) in SupportedIcons ==> GetCryptoIcon(symbol, encode) == IconDirectory + Lower(symbol) + ".svg"
    ensures Lower(symbol) !in SupportedIcons ==>
      GetCryptoIcon(symbol, encode) == SvgDataPrefix + encode(SvgHead + Initial(symbol) + SvgTail)
    ensures IconDirectory <= GetCryptoIcon(symbol, encode) <==> Lower(symbol) in SupportedIcons
    ensures SvgDataPrefix <= GetCryptoIcon(symbol, encode) <==> Lower(symbol) !in SupportedIcons
  {
    var icon := GetCryptoIcon(symbol, encode);
    if Lower(symbol) in SupportedIcons {
      assert (IconDirectory + Lower(symbol) + ".svg")[..|IconDirectory|] == IconDirectory;
      assert icon[0] == '/';
    } else {
      assert (SvgDataPrefix + encode(FallbackSvg(Initial(symbol))))[..|SvgDataPrefix|] == SvgDataPrefix;
      assert icon[0] == 'd';
    }
  }

  /** The upper-cased initial only depends on the lower-cased ticker. */
  lemma InitialIgnoresCase(symbol1: string, symbol2: string)
    requires Lower(symbol1) == Lower(symbol2)
    ensures Initial(symbol1) == Initial(symbol2)
  {
    if symbol1 != [] {
      assert LowerChar(symbol1[0]) == Lower(symbol1)[0] == Lower(symbol2)[0] == LowerChar(symbol2[0]);
      UpperOfLower(symbol1[0]);
      UpperOfLower(symbol2[0]);
    }
  }

  /** The lookup ignores case: tickers that lower-case alike get the same icon, whether a
      file or a fallback. */
  lemma IconIgnoresCase(symbol1: string, symbol2: string, encode: string -> string)
    requires Lower(symbol1) == Lower(symbol2)
    ensures GetCryptoIcon(symbol1, encode) == GetCryptoIcon(symbol2, encode)
  {
    InitialIgnoresCase(symbol1, symbol2);
  }

  /** The fallback's text element holds exactly the upper-cased first letter, at a fixed offset. */
  lemma FallbackShowsInitial(symbol: string)
    ensures var svg := FallbackSvg(Initial(symbol));
      && svg[..|SvgHead|] == SvgHead
      && svg[|SvgHead|..|svg| - |SvgTail|] == Initial(symbol)
      && svg[|svg| - |SvgTail|..] == SvgTail
    ensures symbol != [] ==> FallbackSvg(Initial(symbol))[|SvgHead|] == UpperChar(symbol[0])
  {
  }

  /** Concrete lookups: "BTC" gets the bitcoin file, "doge" a fallback showing "D". */
  lemma IconExamples(encode: string -> string)
    ensures GetCryptoIcon("BTC", encode) == "/assets/crypto-icons/btc.svg"
    ensures GetCryptoIcon("doge", encode) == SvgDataPrefix + encode(SvgHead + "D" + SvgTail)
  {
    assert Lower("BTC") == "btc";
    assert Lower("doge") == "doge";
    assert "doge" !in SupportedIcons;
  }
}
