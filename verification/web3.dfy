/**
 * Address helpers of the front end: the short display form of an address and
 * the syntactic check every form applies to an address before it is sent to a
 * contract.
 */
module Web3 {
  import opened JsText

  /**
   * `formatAddress`: an empty (falsy) address shows as nothing; any other one
   * as its first six characters, an ellipsis and its last four characters,
   * with JavaScript's `slice` clamping both ends for short strings.
   */
  function FormatAddress(address: string): (r: string)
    ensures address == [] ==> r == []
    ensures address != [] ==>
      var head, tail := Min(6, |address|), Min(4, |address|);
      && |r| == head + 3 + tail
      && r[..head] == address[..head]
      && r[head..head + 3] == "..."
      && r[head + 3..] == address[|address| - tail..]
  {
    if address == [] then [] else SliceHead(address, 6) + "..." + SliceTail(address, 4)
  }

  /** Every full-length address is shown in exactly thirteen characters. */
  lemma FormatAddressOfFullLength(address: string)
    requires |address| == 42
    ensures |FormatAddress(address)| == 13
    ensures FormatAddress(address) == address[..6] + "..." + address[38..]
  {
  }

  predicate IsHexDigit(c: char)
  {
    ('0' <= c <= '9') || ('a' <= c <= 'f') || ('A' <= c <= 'F')
  }

  /** `[a-fA-F0-9]{n}$`: exactly `n` hex digits and then the end of the input. */
  predicate HexRunToEnd(s: string, n: nat)
    decreases n
  {
    if n == 0 then s == [] else |s| > 0 && IsHexDigit(s[0]) && HexRunToEnd(s[1..], n - 1)
  }

  /** `isValidAddress`: the anchored pattern `^0x[a-fA-F0-9]{40}$`, matched left to right. */
  predicate IsValidAddress(address: string)
  {
    |address| >= 2 && address[0] == '0' && address[1] == 'x' && HexRunToEnd(address[2..], 40)
  }

  lemma {:induction false} HexRunToEndIff(s: string, n: nat)
    ensures HexRunToEnd(s, n) <==> |s| == n && forall i :: 0 <= i < |s| ==> IsHexDigit(s[i])
    decreases n
  {
    if n > 0 && |s| > 0 {
      HexRunToEndIff(s[1..], n - 1);
      if |s| == n && forall i :: 0 <= i < |s| ==> IsHexDigit(s[i]) {
        assert forall i :: 0 <= i < |s[1..]| ==> IsHexDigit(s[1..][i]) by {
          forall i | 0 <= i < |s[1..]| ensures IsHexDigit(s[1..][i]) {
            assert s[1..][i] == s[i + 1];
          }
        }
      }
    }
  }

  /**
   * The pattern accepts exactly the strings of length 42 that start with a
   * lower-case `0x` and continue with forty hex digits of either case.
   */
  lemma IsValidAddressIff(address: string)
    ensures IsValidAddress(address) <==>
      && |address| == 42
      && address[..2] == "0x"
      && forall i :: 2 <= i < 42 ==> IsHexDigit(address[i])
  {
    if |address| >= 2 {
      HexRunToEndIff(address[2..], 40);
      if |address| == 42 && forall i :: 2 <= i < 42 ==> IsHexDigit(address[i]) {
        forall i | 0 <= i < |address[2..]| ensures IsHexDigit(address[2..][i]) {
          assert address[2..][i] == address[i + 2];
        }
      }
      if IsValidAddress(address) {
        forall i | 2 <= i < 42 ensures IsHexDigit(address[i]) {
          assert address[i] == address[2..][i - 2];
        }
      }
    }
  }

  lemma HexDigitIsNotWhitespace(c: char)
    ensures IsHexDigit(c) ==> !IsJsWhitespace(c)
  {
  }

  /** A valid address has nothing for `trim` to remove. */
  lemma ValidAddressIsTrimmed(address: string)
    requires IsValidAddress(address)
    ensures Trim(address) == address
  {
    IsValidAddressIff(address);
    HexDigitIsNotWhitespace(address[41]);
    assert TrimStart(address) == address;
  }

  /**
   * The pattern is anchored at both ends and its prefix is case-sensitive:
   * leading or trailing whitespace, or an upper-case `0X`, is rejected.
   */
  lemma PaddedOrUpperPrefixRejected(address: string)
    ensures |address| >= 1 && IsJsWhitespace(address[0]) ==> !IsValidAddress(address)
    ensures |address| >= 1 && IsJsWhitespace(address[|address| - 1]) ==> !IsValidAddress(address)
    ensures |address| >= 2 && address[1] == 'X' ==> !IsValidAddress(address)
  {
    IsValidAddressIff(address);
    if |address| == 42 {
      HexDigitIsNotWhitespace(address[41]);
    }
  }

  /** `formatAddress` of the address used by the copy-button tests. */
  lemma FormatAddressExample()
    ensures FormatAddress("0x1234567890abcdef1234567890abcdef12345678") == "0x1234...5678"
  {
    var a := "0x1234567890abcdef1234567890abcdef12345678";
    FormatAddressOfFullLength(a);
    assert a[..6] == "0x1234";
    assert a[38..] == "5678";
  }
}
