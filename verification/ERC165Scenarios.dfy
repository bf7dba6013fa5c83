/** The interface-detection scenarios of the bare `ERC165` contract as
    verified examples. */
module ERC165Scenarios {
  import opened ERC165

  method SupportsOwnInterface() returns (b: bool)
    ensures b
  {
    b := SupportsInterface(BaseInterfaces, 0x01ff_c9a7);
  }

  method RejectsInvalidInterface() returns (b: bool)
    ensures !b
  {
    b := SupportsInterface(BaseInterfaces, 0xffff_ffff);
  }

  method RejectsUnknownInterface() returns (b: bool)
    ensures !b
  {
    b := SupportsInterface(BaseInterfaces, 0x1234_5678);
  }
}
