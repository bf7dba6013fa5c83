/** Standard interface detection (ERC-165): a contract answers, for a
    4-byte interface identifier, whether it implements that interface.
    An interface's identifier is the exclusive-or of the 4-byte selectors
    of all its functions; the value 0xffffffff is reserved and is never
    supported. The query is total: an unknown identifier answers false. */
module ERC165 {

  /** A 4-byte function selector or interface identifier. */
  type Bytes4 = bv32

  /** The identifier ERC-165 reserves as "invalid". */
  const InvalidInterfaceId: Bytes4 := 0xffff_ffff

  /** The interfaces the token contracts can publish. */
  datatype Interface = IERC165 | IERC721 | IERC721Metadata | IERC721Enumerable

  /** The selectors of every function of each interface, as fixed by the
      ERC-165 and ERC-721 standards. */
  function Selectors(i: Interface): seq<Bytes4> {
    match i
    case IERC165 =>
      [ 0x01ff_c9a7 ]                  // supportsInterface(bytes4)
    case IERC721 =>
      [ 0x70a0_8231,                   // balanceOf(address)
        0x6352_211e,                   // ownerOf(uint256)
        0xb88d_4fde,                   // safeTransferFrom(address,address,uint256,bytes)
        0x4284_2e0e,                   // safeTransferFrom(address,address,uint256)
        0x23b8_72dd,                   // transferFrom(address,address,uint256)
        0x095e_a7b3,                   // approve(address,uint256)
        0xa22c_b465,                   // setApprovalForAll(address,bool)
        0x0818_12fc,                   // getApproved(uint256)
        0xe985_e9c5 ]                  // isApprovedForAll(address,address)
    case IERC721Metadata =>
      [ 0x06fd_de03,                   // name()
        0x95d8_9b41,                   // symbol()
        0xc87b_56dd ]                  // tokenURI(uint256)
    case IERC721Enumerable =>
      [ 0x1816_0ddd,                   // totalSupply()
        0x2f74_5c59,                   // tokenOfOwnerByIndex(address,uint256)
        0x4f6c_cce7 ]                  // tokenByIndex(uint256)
  }

  /** The exclusive-or of a list of selectors. */
  function XorAll(s: seq<Bytes4>): Bytes4 {
    if s == [] then 0 else s[0] ^ XorAll(s[1..])
  }

  /** The ERC-165 identifier of an interface. */
  function InterfaceId(i: Interface): Bytes4 {
    XorAll(Selectors(i))
  }

  /** The well-known identifier of each interface, as published in the
      ERC-165 and ERC-721 standards. */
  function KnownId(i: Interface): Bytes4 {
    match i
    case IERC165 => 0x01ff_c9a7
    case IERC721 => 0x80ac_58cd
    case IERC721Metadata => 0x5b5e_139f
    case IERC721Enumerable => 0x780e_9d63
  }

  /** The well-known identifiers follow from the selectors. */
  lemma KnownInterfaceIds(i: Interface)
    ensures InterfaceId(i) == KnownId(i)
  {
    match i
    case IERC165 =>
    case IERC721 =>
      assert InterfaceId(IERC721) == 0x80ac_58cd;
    case IERC721Metadata =>
    case IERC721Enumerable =>
  }

  /** Every interface's identifier is its well-known one. */
  lemma InterfaceIds()
    ensures forall i :: InterfaceId(i) == KnownId(i)
  {
    forall i ensures InterfaceId(i) == KnownId(i) {
      KnownInterfaceIds(i);
    }
  }

  /** Distinct interfaces have distinct identifiers, none of them the
      reserved one. */
  lemma KnownIdsDistinct()
    ensures forall i, j :: KnownId(i) == KnownId(j) ==> i == j
    ensures forall i :: KnownId(i) != InvalidInterfaceId
  {
  }

  datatype Option<T> = None | Some(value: T)

  /** The lookup table a contract compiles `supportsInterface` into: the
      interface named by a known identifier, if any. */
  function Lookup(id: Bytes4): (r: Option<Interface>)
    ensures r.Some? ==> InterfaceId(r.value) == id
    ensures r.None? ==> forall i :: InterfaceId(i) != id
  {
    var r :=
      if id == 0x01ff_c9a7 then Some(IERC165)
      else if id == 0x80ac_58cd then Some(IERC721)
      else if id == 0x5b5e_139f then Some(IERC721Metadata)
      else if id == 0x780e_9d63 then Some(IERC721Enumerable)
      else None;
    InterfaceIds();
    r
  }

  /** `supportsInterface(id)` of a contract publishing `published`: true
      exactly when `id` is the identifier of one of those interfaces, and
      never for the reserved identifier. */
  function SupportsInterface(published: set<Interface>, id: Bytes4): (b: bool)
    ensures b <==> exists i :: i in published && InterfaceId(i) == id
    ensures id == InvalidInterfaceId ==> !b
  {
    var known := Lookup(id);
    InterfaceIds();
    KnownIdsDistinct();
    known.Some? && known.value in published
  }

  /** The interfaces of the bare `ERC165` contract. */
  const BaseInterfaces: set<Interface> := {IERC165}

  /** The interfaces of a full ERC-721 collection with metadata and
      enumeration. */
  const CollectionInterfaces: set<Interface> := {IERC165, IERC721, IERC721Metadata, IERC721Enumerable}
}
