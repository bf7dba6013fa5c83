/** The book catalogue's documented scenarios as verified examples, each
    on a freshly deployed catalogue, for either re-minting policy and every
    choice of the accounts involved that the scenario's own preconditions
    allow. */
module BooksCollectionScenarios {
  import opened Types
  import opened ERC721
  import opened BooksCollection

  method SupportsTokenInterfaces(remint: bool) returns (erc721: bool, metadata: bool, enumerable: bool)
    ensures erc721 && metadata && enumerable
  {
    var c := new Collection(remint);
    erc721 := c.SupportsInterface(0x80ac_58cd);
    metadata := c.SupportsInterface(0x5b5e_139f);
    enumerable := c.SupportsInterface(0x780e_9d63);
  }

  method MintAndGetBook(remint: bool, owner: Address) returns (r: Outcome<Error>, stored: Result<Book, Error>)
    requires owner != ZeroAddress
    ensures r == Done && stored.Ok?
    ensures stored.value.title == "Hardhat Guide" && stored.value.author == "John Doe"
    ensures stored.value.isbn == "123-456-789" && stored.value.publicationYear == 2024
    ensures |stored.value.genres| == 2
  {
    var c := new Collection(remint);
    var book := Book(2024, "Hardhat Guide", "A guide to Hardhat and Solidity.", "John Doe", "123-456-789",
                     ["Programming", "Blockchain"]);
    r := c.MintBook(owner, 1, book, ExternallyOwned);
    stored := c.GetBook(1);
  }

  method GetMissingBook(remint: bool) returns (stored: Result<Book, Error>)
    ensures stored == Err(TokenDoesNotExist) && Reason(stored.error) == "Token does not exist!"
  {
    var c := new Collection(remint);
    stored := c.GetBook(999);
  }

  method BurnBookRemovesRecord(remint: bool, owner: Address)
    returns (r: Outcome<Error>, ownerOf: Result<Address, Error>, stored: Result<Book, Error>)
    requires owner != ZeroAddress
    ensures r == Done
    ensures ownerOf == Err(TokenDoesNotExist) && stored == Err(TokenDoesNotExist)
  {
    var c := new Collection(remint);
    var book := Book(2025, "Solidity Advanced", "Deep dive into Solidity.", "Jane Doe", "987-654-321",
                     ["Smart Contracts", "Ethereum"]);
    var _ := c.MintBook(owner, 2, book, ExternallyOwned);
    r := c.BurnBook(owner, 2);
    ownerOf := c.enumerable.token.OwnerOf(2);
    stored := c.GetBook(2);
  }

  method BurnMissingBook(remint: bool, caller: Address) returns (r: Outcome<Error>)
    ensures r == Revert(TokenDoesNotExist)
  {
    var c := new Collection(remint);
    r := c.BurnBook(caller, 999);
  }
}
