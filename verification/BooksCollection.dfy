/** The book catalogue (`BooksCollection`): an enumerable ERC-721
    collection in which every token carries a book record. Minting a book
    stores its record with the token; burning it deletes both, so a record
    exists exactly while its token does. */
module BooksCollection {
  import opened Types
  import opened ERC721
  import opened ERC721Enumerable
  import ERC165

  /** The record stored for each book token. */
  datatype Book = Book(
    publicationYear: Uint256,
    title: string,
    description: string,
    author: string,
    isbn: string,
    genres: seq<string>)

  class Collection {
    /** The enumerable registry the catalogue is built on. */
    const enumerable: EnumerableToken
    var books: map<TokenId, Book>

    /** The catalogue invariant: the registry and its indexes are
        consistent, and the stored records are exactly those of the
        existing tokens. */
    ghost predicate Valid()
      reads this, enumerable, enumerable.token
    {
      && enumerable.Valid()
      && books.Keys == enumerable.token.owners.Keys
    }

    constructor (remintAfterBurn: bool)
      ensures Valid() && fresh(enumerable) && fresh(enumerable.token)
      ensures books == map[] && enumerable.token.owners == map[] && enumerable.token.burned == {}
      ensures enumerable.token.log == []
    {
      enumerable := new EnumerableToken(remintAfterBurn);
      books := map[];
    }

    /** `supportsInterface(id)`: the collection publishes ERC-165,
        ERC-721, ERC-721 metadata and ERC-721 enumeration. */
    function SupportsInterface(id: ERC165.Bytes4): (b: bool)
      ensures b <==> id in {0x01ff_c9a7, 0x80ac_58cd, 0x5b5e_139f, 0x780e_9d63}
    {
      ERC165.InterfaceIds();
      ERC165.KnownIdsDistinct();
      ERC165.SupportsInterface(ERC165.CollectionInterfaces, id)
    }

    /** `getBook(id)`: the stored record, or a revert for a token that
        does not exist. */
    function GetBook(id: TokenId): (r: Result<Book, Error>)
      reads this, enumerable, enumerable.token
      requires Valid()
      ensures r.Ok? <==> id in enumerable.token.owners
      ensures r.Err? ==> r.error == TokenDoesNotExist
      ensures r.Ok? ==> id in books && r.value == books[id]
    {
      if id in books then Ok(books[id]) else Err(TokenDoesNotExist)
    }

    /** `mintBook(to, id, book, data)`: a safe mint of `id` to `to` that
        also stores `book`; a revert of the mint stores nothing. */
    method MintBook(to: Address, id: TokenId, book: Book, recipient: Recipient) returns (r: Outcome<Error>)
      requires Valid()
      modifies this, enumerable, enumerable.token
      ensures Valid()
      ensures r == if old(enumerable.token.MintCheck(to, id)).Revert? then old(enumerable.token.MintCheck(to, id))
                   else if !AcceptsTokens(recipient) then Revert(NonReceiver)
                   else Done
      ensures r.Revert? ==>
        && books == old(books)
        && enumerable.token.Storage() == old(enumerable.token.Storage())
        && enumerable.Index() == old(enumerable.Index())
      ensures r.Done? ==> books == old(books)[id := book] && enumerable.Minted(to, id)
    {
      r := enumerable.SafeMint(to, id, recipient);
      if r.Done? {
        books := books[id := book];
      }
    }

    /** `burnBook(id)` called by `caller`: burns the token (with the
        registry's existence and authorisation checks) and deletes its
        record. */
    method BurnBook(caller: Address, id: TokenId) returns (r: Outcome<Error>)
      requires Valid()
      modifies this, enumerable, enumerable.token
      ensures Valid()
      ensures r == old(enumerable.token.BurnCheck(caller, id))
      ensures r.Revert? ==>
        && books == old(books)
        && enumerable.token.Storage() == old(enumerable.token.Storage())
        && enumerable.Index() == old(enumerable.Index())
      ensures r.Done? ==> books == old(books) - {id} && enumerable.Burned(id)
    {
      r := enumerable.Burn(caller, id);
      if r.Done? {
        books := books - {id};
      }
    }
  }
}
