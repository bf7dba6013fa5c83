/** The metadata extension's documented scenarios as verified examples,
    each on a freshly deployed registry with the given name, symbol and
    base URI. */
module ERC721MetadataScenarios {
  import opened Types
  import opened ERC721
  import opened ERC721Metadata

  method MetadataOfMintedToken(remint: bool, owner: Address)
    returns (name: string, symbol: string, uri: Result<string, Error>)
    requires owner != ZeroAddress
    ensures name == "name" && symbol == "symbol"
    ensures uri == Ok("https://test.com/2")
  {
    var m := new MetadataToken("name", "symbol", "https://test.com/", remint);
    var _ := m.token.Mint(owner, 2);
    name, symbol := m.name, m.symbol;
    uri := m.TokenURI(2);
    assert ToDecimal(2) == "2";
    assert "https://test.com/" + "2" == "https://test.com/2";
  }

  method URIOfMissingToken(remint: bool) returns (uri: Result<string, Error>)
    ensures uri == Err(TokenDoesNotExist) && Reason(uri.error) == "Token does not exist!"
  {
    var m := new MetadataToken("name", "symbol", "https://test.com/", remint);
    uri := m.TokenURI(2);
  }

  method URIWithEmptyBase(remint: bool, owner: Address) returns (uri: Result<string, Error>)
    requires owner != ZeroAddress
    ensures uri == Ok("")
  {
    var m := new MetadataToken("name", "symbol", "", remint);
    var _ := m.token.Mint(owner, 2);
    uri := m.TokenURI(2);
  }
}
