/** The ERC-721 metadata extension (`MockERC721Metadata`): a collection
    name and symbol fixed at deployment, and a per-token URI made of a
    base URI followed by the token identifier written in decimal. An empty
    base URI yields an empty token URI. */
module ERC721Metadata {
  import opened Types
  import opened ERC721

  predicate IsDigit(c: char) {
    '0' <= c <= '9'
  }

  function DigitChar(d: nat): (c: char)
    requires d < 10
    ensures IsDigit(c)
  {
    (48 + d) as char
  }

  function DigitValue(c: char): (d: nat)
    requires IsDigit(c)
    ensures d < 10
  {
    (c as int - 48) as nat
  }

  /** The decimal rendering of `n` (Solidity's `Strings.toString`): at
      least one digit, and no leading zero unless `n` is zero. */
  function ToDecimal(n: nat): (s: string)
    ensures |s| >= 1
    ensures forall i :: 0 <= i < |s| ==> IsDigit(s[i])
    ensures |s| > 1 ==> s[0] != '0'
    decreases n
  {
    if n < 10 then [DigitChar(n)] else ToDecimal(n / 10) + [DigitChar(n % 10)]
  }

  /** Reads a string of decimal digits back as a number. */
  function FromDecimal(s: string): nat
    requires forall i :: 0 <= i < |s| ==> IsDigit(s[i])
  {
    if s == [] then 0 else FromDecimal(s[..|s| - 1]) * 10 + DigitValue(s[|s| - 1])
  }

  /** Reading the decimal rendering back gives the number. */
  lemma {:induction false} DecimalRoundTrip(n: nat)
    ensures FromDecimal(ToDecimal(n)) == n
    decreases n
  {
    var s := ToDecimal(n);
    if n >= 10 {
      DecimalRoundTrip(n / 10);
      assert s[..|s| - 1] == ToDecimal(n / 10);
    }
  }

  /** Distinct identifiers have distinct decimal renderings. */
  lemma DecimalInjective(m: nat, n: nat)
    ensures ToDecimal(m) == ToDecimal(n) ==> m == n
  {
    DecimalRoundTrip(m);
    DecimalRoundTrip(n);
  }

  /** The URI of an existing token under base URI `base`: empty when the
      base is empty, otherwise the base followed by the identifier's
      decimal digits. */
  function TokenURIFor(base: string, id: TokenId): (uri: string)
    ensures base == [] ==> uri == []
    ensures base != [] ==> |uri| > |base| && uri[..|base|] == base
    ensures base != [] ==> (forall i :: |base| <= i < |uri| ==> IsDigit(uri[i]))
  {
    if base == [] then [] else base + ToDecimal(id)
  }

  /** A non-empty base URI determines the token: the suffix after the
      base reads back as the identifier. */
  lemma TokenURIIdentifiesToken(base: string, id: TokenId)
    requires base != []
    ensures FromDecimal(TokenURIFor(base, id)[|base|..]) == id
  {
    assert TokenURIFor(base, id)[|base|..] == ToDecimal(id);
    DecimalRoundTrip(id);
  }

  class MetadataToken {
    /** The underlying registry. */
    const token: Token
    const name: string
    const symbol: string
    /** The base URI given at deployment. */
    const baseURI: string

    ghost predicate Valid()
      reads this, token
    {
      token.Valid()
    }

    /** Deployment with `(name, symbol, baseURI)`. */
    constructor (name: string, symbol: string, baseURI: string, remintAfterBurn: bool)
      ensures Valid() && fresh(token)
      ensures this.name == name && this.symbol == symbol && this.baseURI == baseURI
      ensures token.owners == map[] && token.burned == {} && token.remintAfterBurn == remintAfterBurn
    {
      token := new Token(remintAfterBurn);
      this.name, this.symbol, this.baseURI := name, symbol, baseURI;
    }

    /** `tokenURI(id)`: reverts for a token that does not exist. */
    function TokenURI(id: TokenId): (r: Result<string, Error>)
      reads this, token
      ensures r.Ok? <==> id in token.owners
      ensures r.Err? ==> r.error == TokenDoesNotExist
      ensures r.Ok? ==> r.value == TokenURIFor(baseURI, id)
    {
      if id in token.owners then Ok(TokenURIFor(baseURI, id)) else Err(TokenDoesNotExist)
    }
  }
}
