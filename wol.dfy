/** Wake-on-LAN (internal/wake/wol.go): MAC address validation, decoding of
    its hex digits, and the AMD "Magic Packet" sent to UDP port 9. The UDP
    dial and write are inputs: their outcomes are parameters of `Send`. */
module WakeOnLan {
  import opened Wrappers
  import opened GoStrings

  type byte = x: int | 0 <= x < 256

  predicate IsHexDigit(c: char) {
    ('0' <= c <= '9') || ('a' <= c <= 'f') || ('A' <= c <= 'F')
  }

  function HexValue(c: char): (v: nat)
    requires IsHexDigit(c)
    ensures v < 16
  {
    if '0' <= c <= '9' then (c as int - '0' as int) as nat
    else if 'a' <= c <= 'f' then (c as int - 'a' as int + 10) as nat
    else (c as int - 'A' as int + 10) as nat
  }

  /** The byte a pair of hex digits stands for, high digit first. */
  function HexByte(hi: char, lo: char): byte
    requires IsHexDigit(hi) && IsHexDigit(lo)
  {
    HexValue(hi) * 16 + HexValue(lo)
  }

  /** `macRegex`, `^([0-9A-Fa-f]{2}[:-]){5}([0-9A-Fa-f]{2})$`: six pairs of
      hex digits, each of the five separators ':' or '-' on its own (they may
      be mixed). */
  predicate IsValidMac(mac: string) {
    |mac| == 17 &&
    forall i :: 0 <= i < 17 ==>
      if i % 3 == 2 then mac[i] == ':' || mac[i] == '-' else IsHexDigit(mac[i])
  }

  /** Why `encoding/hex` rejects its input: a character that is not a hex
      digit, or an odd number of digits. */
  datatype HexError = InvalidByte(c: char) | OddLength

  datatype Decoded = Decoded(bytes: seq<byte>) | DecodeError(err: HexError)

  predicate AllHex(s: string) {
    forall k :: 0 <= k < |s| ==> IsHexDigit(s[k])
  }

  /** `hex.DecodeString`: pairs are read left to right and the first bad
      character of a pair is reported; an odd trailing digit is first checked
      for being a hex digit, then reported as an odd length. */
  function HexDecode(s: string): (r: Decoded)
    ensures r.Decoded? <==> |s| % 2 == 0 && AllHex(s)
    ensures r.Decoded? ==> |r.bytes| == |s| / 2
    ensures r.Decoded? ==> forall i :: 0 <= i < |r.bytes| ==> r.bytes[i] == HexByte(s[2 * i], s[2 * i + 1])
    ensures r.DecodeError? && r.err.InvalidByte? ==> r.err.c in s && !IsHexDigit(r.err.c)
    ensures r.DecodeError? && r.err.OddLength? ==> |s| % 2 == 1 && AllHex(s)
    decreases |s|
  {
    if |s| >= 2 then
      AllHexCons(s);
      if !IsHexDigit(s[0]) then DecodeError(InvalidByte(s[0]))
      else if !IsHexDigit(s[1]) then DecodeError(InvalidByte(s[1]))
      else
        match HexDecode(s[2..])
        case DecodeError(e) =>
          assert e.InvalidByte? ==> e.c in s by {
            if e.InvalidByte? {
              assert e.c in s[2..];
            }
          }
          DecodeError(e)
        case Decoded(rest) =>
          DecodeCons(s, rest);
          Decoded([HexByte(s[0], s[1])] + rest)
    else if |s| == 1 then
      if !IsHexDigit(s[0]) then DecodeError(InvalidByte(s[0])) else DecodeError(OddLength)
    else Decoded([])
  }

  /** A string is all hex digits iff its first pair and the rest are. */
  lemma AllHexCons(s: string)
    requires |s| >= 2
    ensures AllHex(s) <==> IsHexDigit(s[0]) && IsHexDigit(s[1]) && AllHex(s[2..])
  {
    if IsHexDigit(s[0]) && IsHexDigit(s[1]) && AllHex(s[2..]) {
      forall k | 2 <= k < |s|
        ensures IsHexDigit(s[k])
      {
        assert s[k] == s[2..][k - 2];
      }
    }
  }

  /** The pair at the front followed by the pairs decoded from the rest. */
  lemma DecodeCons(s: string, rest: seq<byte>)
    requires |s| >= 2 && |s| % 2 == 0 && AllHex(s)
    requires |rest| == (|s| - 2) / 2
    requires forall i :: 0 <= i < |rest| ==> rest[i] == HexByte(s[2..][2 * i], s[2..][2 * i + 1])
    ensures |[HexByte(s[0], s[1])] + rest| == |s| / 2
    ensures forall i :: 0 <= i < |rest| + 1 ==> ([HexByte(s[0], s[1])] + rest)[i] == HexByte(s[2 * i], s[2 * i + 1])
  {
    var bytes := [HexByte(s[0], s[1])] + rest;
    forall i | 1 <= i < |bytes|
      ensures bytes[i] == HexByte(s[2 * i], s[2 * i + 1])
    {
      assert bytes[i] == rest[i - 1];
      assert s[2 * i] == s[2..][2 * (i - 1)] && s[2 * i + 1] == s[2..][2 * (i - 1) + 1];
    }
  }

  /** The text `parseMac` decodes: the MAC without any ':' or '-'. */
  function StripSeparators(mac: string): string {
    RemoveChar(RemoveChar(mac, ':'), '-')
  }

  /** `parseMac`: drop every ':' and then every '-', and decode the rest. It
      fails exactly when what is left is not an even run of hex digits, and
      a MAC the pattern accepts gives the six bytes its pairs spell. */
  function ParseMac(mac: string): (r: Decoded)
    ensures r.Decoded? <==> |StripSeparators(mac)| % 2 == 0 && AllHex(StripSeparators(mac))
    ensures IsValidMac(mac) ==>
              r == Decoded([HexByte(mac[0], mac[1]), HexByte(mac[3], mac[4]), HexByte(mac[6], mac[7]),
                            HexByte(mac[9], mac[10]), HexByte(mac[12], mac[13]), HexByte(mac[15], mac[16])])
  {
    if IsValidMac(mac) then
      ValidMacDecodes(mac);
      HexDecode(StripSeparators(mac))
    else
      HexDecode(StripSeparators(mac))
  }

  lemma {:induction false} RemoveCharAppend(a: string, b: string, c: char)
    ensures RemoveChar(a + b, c) == RemoveChar(a, c) + RemoveChar(b, c)
    decreases |a|
  {
    if a != [] {
      assert (a + b)[1..] == a[1..] + b;
      RemoveCharAppend(a[1..], b, c);
    } else {
      assert a + b == b;
    }
  }

  /** Groups of two hex digits separated by single ':' or '-' characters, as
      in a valid MAC address, which is six such groups. */
  predicate Grouped(s: string) {
    |s| % 3 == 2 &&
    forall i :: 0 <= i < |s| ==>
      if i % 3 == 2 then s[i] == ':' || s[i] == '-' else IsHexDigit(s[i])
  }

  lemma GroupedTail(s: string)
    requires Grouped(s) && |s| > 2
    ensures Grouped(s[3..])
  {
    var rest := s[3..];
    forall i | 0 <= i < |rest|
      ensures if i % 3 == 2 then rest[i] == ':' || rest[i] == '-' else IsHexDigit(rest[i])
    {
      assert rest[i] == s[i + 3];
    }
  }

  /** Cleaning grouped digits keeps the first pair and cleans the rest. */
  lemma CleanStep(s: string)
    requires |s| > 2 && ':' !in s[..2] && '-' !in s[..2] && (s[2] == ':' || s[2] == '-')
    ensures RemoveChar(RemoveChar(s, ':'), '-') == s[..2] + RemoveChar(RemoveChar(s[3..], ':'), '-')
  {
    var pair, rest := s[..2], s[3..];
    assert s == pair + [s[2]] + rest;
    RemoveCharAppend(pair + [s[2]], rest, ':');
    RemoveCharAppend(pair, [s[2]], ':');
    var once := RemoveChar(pair + [s[2]], ':');
    RemoveCharAppend(once, RemoveChar(rest, ':'), '-');
    if s[2] == ':' {
      assert RemoveChar([s[2]], ':') == [];
      assert once == pair;
    } else {
      assert RemoveChar([s[2]], ':') == [s[2]];
      assert once == pair + [s[2]];
      RemoveCharAppend(pair, [s[2]], '-');
      assert RemoveChar([s[2]], '-') == [];
    }
  }

  /** The digits of grouped pairs, without their separators. */
  function Digits(s: string): (d: string)
    requires |s| % 3 == 2
    decreases |s|
  {
    if |s| == 2 then s else s[..2] + Digits(s[3..])
  }

  /** Removing the separators of grouped digits leaves the digits. */
  lemma {:induction false} CleanGrouped(s: string)
    requires Grouped(s)
    ensures RemoveChar(RemoveChar(s, ':'), '-') == Digits(s)
    decreases |s|
  {
    if |s| == 2 {
      assert ':' !in s && '-' !in s by {
        assert IsHexDigit(s[0]) && IsHexDigit(s[1]);
      }
    } else {
      GroupedTail(s);
      assert ':' !in s[..2] && '-' !in s[..2] && (s[2] == ':' || s[2] == '-') by {
        assert IsHexDigit(s[0]) && IsHexDigit(s[1]);
      }
      CleanStep(s);
      CleanGrouped(s[3..]);
    }
  }

  /** The digits of a valid MAC address, pair after pair. */
  lemma MacDigits(mac: string)
    requires |mac| == 17
    ensures Digits(mac) == [mac[0], mac[1], mac[3], mac[4], mac[6], mac[7], mac[9], mac[10], mac[12], mac[13], mac[15], mac[16]]
  {
    var s0, s1, s2, s3, s4, s5 := mac, mac[3..], mac[6..], mac[9..], mac[12..], mac[15..];
    assert s1[3..] == s2 && s2[3..] == s3 && s3[3..] == s4 && s4[3..] == s5;
    assert Digits(s5) == [mac[15], mac[16]];
    assert Digits(s4) == [mac[12], mac[13]] + Digits(s5);
    assert Digits(s3) == [mac[9], mac[10]] + Digits(s4);
    assert Digits(s2) == [mac[6], mac[7]] + Digits(s3);
    assert Digits(s1) == [mac[3], mac[4]] + Digits(s2);
    assert Digits(s0) == [mac[0], mac[1]] + Digits(s1);
  }

  /** The digits of a MAC address the pattern accepts are all hex digits. */
  lemma ValidMacDigits(mac: string)
    requires IsValidMac(mac)
    ensures RemoveChar(RemoveChar(mac, ':'), '-') == Digits(mac)
    ensures AllHex(Digits(mac))
  {
    assert Grouped(mac);
    CleanGrouped(mac);
    MacDigits(mac);
    assert forall i :: 0 <= i < 17 && i % 3 != 2 ==> IsHexDigit(mac[i]);
  }

  /** Every MAC the pattern accepts decodes to exactly six bytes, byte `i`
      being its `i`-th pair of hex digits. */
  lemma ValidMacDecodes(mac: string)
    requires IsValidMac(mac)
    ensures HexDecode(StripSeparators(mac)) ==
              Decoded([HexByte(mac[0], mac[1]), HexByte(mac[3], mac[4]), HexByte(mac[6], mac[7]),
                       HexByte(mac[9], mac[10]), HexByte(mac[12], mac[13]), HexByte(mac[15], mac[16])])
  {
    ValidMacDigits(mac);
    MacDigits(mac);
    var r := HexDecode(StripSeparators(mac));
    var bytes := r.bytes;
    assert |bytes| == 6;
    var d := Digits(mac);
    assert bytes[0] == HexByte(d[0], d[1]) && bytes[1] == HexByte(d[2], d[3]) && bytes[2] == HexByte(d[4], d[5]);
    assert bytes[3] == HexByte(d[6], d[7]) && bytes[4] == HexByte(d[8], d[9]) && bytes[5] == HexByte(d[10], d[11]);
  }

  /** ASCII lower case, which leaves non-letters alone. */
  function Lower(c: char): (l: char)
    ensures IsHexDigit(c) <==> IsHexDigit(l)
    ensures IsHexDigit(c) ==> HexValue(l) == HexValue(c)
  {
    if 'A' <= c <= 'Z' then (c as int + 32) as char else c
  }

  function LowerAll(s: string): (l: string)
    ensures |l| == |s| && forall k :: 0 <= k < |s| ==> l[k] == Lower(s[k])
  {
    seq(|s|, k requires 0 <= k < |s| => Lower(s[k]))
  }

  /** Upper- and lower-case hex digits decode to the same bytes. */
  lemma HexDecodeIgnoresCase(s: string)
    ensures HexDecode(LowerAll(s)).Decoded? <==> HexDecode(s).Decoded?
    ensures HexDecode(s).Decoded? ==> HexDecode(LowerAll(s)) == HexDecode(s)
  {
    var l := LowerAll(s);
    assert AllHex(l) <==> AllHex(s) by {
      assert forall k :: 0 <= k < |s| ==> (IsHexDigit(l[k]) <==> IsHexDigit(s[k]));
    }
    if HexDecode(s).Decoded? {
      var a, b := HexDecode(l).bytes, HexDecode(s).bytes;
      assert forall i :: 0 <= i < |a| ==> a[i] == b[i];
    }
  }

  lemma LowerKeepsValid(mac: string)
    requires IsValidMac(mac)
    ensures IsValidMac(LowerAll(mac))
  {
    var l := LowerAll(mac);
    forall i | 0 <= i < 17
      ensures if i % 3 == 2 then l[i] == ':' || l[i] == '-' else IsHexDigit(l[i])
    {
      assert l[i] == Lower(mac[i]);
    }
  }

  /** A MAC address in either case is the same address. */
  lemma ParseMacIgnoresCase(mac: string)
    requires IsValidMac(mac)
    ensures IsValidMac(LowerAll(mac))
    ensures ParseMac(LowerAll(mac)) == ParseMac(mac)
  {
    var l := LowerAll(mac);
    LowerKeepsValid(mac);
    HexByteLower(mac[0], mac[1]);
    HexByteLower(mac[3], mac[4]);
    HexByteLower(mac[6], mac[7]);
    HexByteLower(mac[9], mac[10]);
    HexByteLower(mac[12], mac[13]);
    HexByteLower(mac[15], mac[16]);
  }

  /** Lower-casing both digits of a pair leaves its byte unchanged. */
  lemma HexByteLower(hi: char, lo: char)
    requires IsHexDigit(hi) && IsHexDigit(lo)
    ensures IsHexDigit(Lower(hi)) && IsHexDigit(Lower(lo))
    ensures HexByte(Lower(hi), Lower(lo)) == HexByte(hi, lo)
  {
  }

  /** The pattern is stricter than `parseMac`: twelve hex digits with no
      separators (such as "AABBCCDDEEFF") decode, but are refused as a MAC
      address. */
  lemma SeparatorsRequired(s: string)
    requires |s| == 12 && AllHex(s)
    ensures !IsValidMac(s)
    ensures ParseMac(s).Decoded?
  {
    assert ':' !in s && '-' !in s by {
      forall k | 0 <= k < |s|
        ensures s[k] != ':' && s[k] != '-'
      {
        assert IsHexDigit(s[k]);
      }
    }
  }

  /** `count` copies of `mac`, one after the other. */
  function Copies(mac: seq<byte>, count: nat): (r: seq<byte>)
    ensures |r| == count * |mac|
  {
    if count == 0 then [] else Copies(mac, count - 1) + mac
  }

  /** The magic packet: six 0xFF bytes, then sixteen copies of the address. */
  function MagicPacket(mac: seq<byte>): seq<byte> {
    [0xFF, 0xFF, 0xFF, 0xFF, 0xFF, 0xFF] + Copies(mac, 16)
  }

  /** Copies of a six-byte address repeat it every six bytes. */
  lemma {:induction false} CopiesLayout(mac: seq<byte>, count: nat)
    requires |mac| == 6
    ensures forall k :: 0 <= k < |Copies(mac, count)| ==> Copies(mac, count)[k] == mac[k % 6]
  {
    if count > 0 {
      CopiesLayout(mac, count - 1);
      var c := Copies(mac, count);
      forall k | 6 * (count - 1) <= k < |c|
        ensures c[k] == mac[k % 6]
      {
        assert k % 6 == k - 6 * (count - 1);
      }
    }
  }

  /** The layout of the magic packet: 6 + 16 * |mac| bytes, 102 for a
      six-byte address; six 0xFF bytes; then the address over and over. */
  lemma MagicPacketLayout(mac: seq<byte>)
    ensures |MagicPacket(mac)| == 6 + 16 * |mac|
    ensures |mac| == 6 ==> |MagicPacket(mac)| == 102
    ensures forall i :: 0 <= i < 6 ==> MagicPacket(mac)[i] == 0xFF
    ensures |mac| == 6 ==> forall k :: 6 <= k < |MagicPacket(mac)| ==> MagicPacket(mac)[k] == mac[(k - 6) % 6]
  {
    if |mac| == 6 {
      CopiesLayout(mac, 16);
    }
  }

  /** Byte `j` of copy `r` of a six-byte address sits at 6 + 6 * r + j. */
  lemma MagicPacketCopy(mac: seq<byte>, r: nat, j: nat)
    requires |mac| == 6 && r < 16 && j < 6
    ensures MagicPacket(mac)[6 + 6 * r + j] == mac[j]
  {
    MagicPacketLayout(mac);
    assert (6 * r + j) % 6 == j;
  }

  /** The two loops in `Send` that build the packet. */
  method BuildPacket(mac: seq<byte>) returns (packet: seq<byte>)
    ensures packet == MagicPacket(mac)
  {
    packet := [];
    for i := 0 to 6
      invariant |packet| == i && forall k :: 0 <= k < i ==> packet[k] == 0xFF
    {
      packet := packet + [0xFF];
    }
    assert packet == [0xFF, 0xFF, 0xFF, 0xFF, 0xFF, 0xFF];
    for i := 0 to 16
      invariant packet == [0xFF, 0xFF, 0xFF, 0xFF, 0xFF, 0xFF] + Copies(mac, i)
    {
      packet := packet + mac;
    }
  }

  /** What `Send` did: sent `packet` to `addr`, failed with a message, or
      failed to decode the address. */
  datatype SendResult = Sent(addr: string, packet: seq<byte>) | Failed(msg: string)

  /** `Send`: refuse an address the pattern rejects before any network step,
      decode it, build the packet, dial UDP `broadcast:9` and write the
      packet. `dial` gives the error of dialing an address, if any, and
      `writeErr` that of the write. */
  method Send(mac: string, broadcast: string, dial: string -> Option<string>, writeErr: Option<string>)
    returns (r: SendResult)
    ensures !IsValidMac(mac) ==> r == Failed("invalid MAC address: " + mac + " (expected format: AA:BB:CC:DD:EE:FF)")
    ensures IsValidMac(mac) && dial(broadcast + ":9").Some? ==>
              r == Failed("failed to connect to " + broadcast + ":9: " + dial(broadcast + ":9").value)
    ensures IsValidMac(mac) && dial(broadcast + ":9").None? && writeErr.Some? ==>
              r == Failed("failed to send magic packet: " + writeErr.value)
    ensures r.Sent? <==> IsValidMac(mac) && dial(broadcast + ":9").None? && writeErr.None?
    ensures r.Sent? ==> r.addr == broadcast + ":9" && r.packet == MagicPacket(ParseMac(mac).bytes) && |r.packet| == 102
  {
    if !IsValidMac(mac) {
      return Failed("invalid MAC address: " + mac + " (expected format: AA:BB:CC:DD:EE:FF)");
    }
    // The decode error `Send` passes on cannot occur here: ParseMac's
    // contract decodes every MAC the pattern accepts.
    var macBytes := ParseMac(mac).bytes;
    var packet := BuildPacket(macBytes);
    MagicPacketLayout(macBytes);
    var addr := broadcast + ":9";
    match dial(addr)
    case Some(e) =>
      return Failed("failed to connect to " + addr + ": " + e);
    case None =>
      if writeErr.Some? {
        return Failed("failed to send magic packet: " + writeErr.value);
      }
      return Sent(addr, packet);
  }
}
