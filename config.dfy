/**
 * The project's constants: its Ethereum address, database file name and
 * support account, and the getters that hand them out.
 */
module Config {
  import opened PyBuiltins

  /** The project address as written, parentheses included. */
  const EthAddressLiteral: string := "(0x57a3e009ad125d5fcf1a800bec2115f2a8096d0b)"
  const DbNameLiteral: string := "ascension.db"
  const SupportAccountLiteral: string := "@master_long"

  function GetSupportAccount(): (r: string)
    ensures r == "@master_long"
  {
    SupportAccountLiteral
  }

  function DbName(): (r: string)
    ensures r == "ascension.db"
  {
    DbNameLiteral
  }

  /**
   * The project address, lower-cased. It keeps the length and the enclosing
   * parentheses of the literal, and lower-casing it again changes nothing.
   */
  function ProjectEthAddress(): (r: string)
    ensures |r| == |EthAddressLiteral| == 44
    ensures forall i :: 0 <= i < |r| ==> r[i] == Lower(EthAddressLiteral[i])
    ensures LowerStr(r) == r
    ensures r[0] == '(' && r[43] == ')'
  {
    LowerStrIdempotent(EthAddressLiteral);
    assert |EthAddressLiteral| == 44;
    assert EthAddressLiteral[0] == '(';
    assert EthAddressLiteral[43] == ')';
    LowerStr(EthAddressLiteral)
  }

  /**
   * `project_eth_address()[2:]`, the value both the webhook and the hook
   * lookup compare against. Because the literal is parenthesised, the slice
   * drops `(0` and keeps the closing parenthesis.
   */
  function HookAddress(): (r: string)
    ensures |r| == 42 && r[0] == 'x' && r[41] == ')'
    ensures forall i :: 0 <= i < 42 ==> r[i] == Lower(EthAddressLiteral[i + 2])
  {
    assert EthAddressLiteral[2] == 'x';
    ProjectEthAddress()[2..]
  }

  /**
   * No address made of hexadecimal digits, lower-cased or not, equals the
   * hook address: its last character is a parenthesis.
   */
  lemma HexNeverMatchesHook(a: string)
    requires IsHexString(a)
    ensures a != HookAddress()
    ensures LowerStr(a) != HookAddress()
  {
  }
}
