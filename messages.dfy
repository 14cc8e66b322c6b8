/**
 * `auth.Bytes` of messages.go: the byte-exact AUTH request body
 *   {0x23: user, 0x21: ["chap-sha1", scramble]}
 * written by hand as a fixmap of two entries, a fixstr user name of at most
 * 31 bytes, a fixarray of the fixstr "chap-sha1" and a bin8 of the 20-byte scramble.
 */
module AuthMessage {
  import opened Bytes
  import opened Wrappers
  import opened Msgpack

  const Sha1Size := 20

  /** The ASCII text "chap-sha1". */
  const ChapSha1: seq<uint8> := [0x63, 0x68, 0x61, 0x70, 0x2d, 0x73, 0x68, 0x61, 0x31]

  /** The `auth` struct of messages.go: a user name and a `[sha1.Size]byte` scramble. */
  datatype Auth = Auth(user: seq<uint8>, scramble: Bytes20)

  datatype BytesError = UserNameTooLong

  /** The map header, the user-name key and the fixstr header of a name of l bytes. */
  function Prefix(l: nat): (p: seq<uint8>)
    requires l <= 31
  {
    [Map15LengthMask + 2, TagUint8, KeyUserName, String31LengthMask + l]
  }

  /** The tuple key, the fixarray header, the fixstr "chap-sha1" and the bin8 header. */
  const Middle: seq<uint8> :=
    [TagUint8, KeyTuple, Array15LengthMask + 2, String31LengthMask + 9] + ChapSha1 + [Bin8, Sha1Size as uint8]

  /** The bytes auth.Bytes writes, laid out as one sequence. */
  function Layout(a: Auth): (o: seq<uint8>)
    requires |a.user| <= 31
  {
    Prefix(|a.user|) + a.user + Middle + a.scramble
  }

  /** auth.Bytes (messages.go:14-57): refuses a user name over 31 bytes, otherwise
      allocates `4 + l + 15 + sha1.Size` bytes and writes them index by index. */
  method ToBytes(a: Auth) returns (r: Result<seq<uint8>, BytesError>)
    ensures |a.user| > 31 <==> r.Failure?
    ensures r.Success? ==> r.value == Layout(a)
  {
    var l := |a.user|;
    if l > 31 {
      return Failure(UserNameTooLong);
    }
    var o := new uint8[4 + l + 15 + Sha1Size];
    WritePrefix(o, l);
    ghost var header := o[..];
    CopyInto(o, 4, a.user);
    ghost var named := o[..];
    var j := 4 + l;
    WriteMiddle(o, j);
    ghost var middled := o[..];
    CopyInto(o, j + 15, a.scramble);
    PrefixKept(o[..], middled, j + 15, j);
    PrefixKept(o[..], middled, j, 4);
    PrefixKept(middled, named, j, 4);
    Assembled(o[..], a);
    return Success(o[..]);
  }

  /** The four header writes of auth.Bytes, `o[0]` to `o[3]` (messages.go:20-27). */
  method WritePrefix(o: array<uint8>, l: nat)
    requires l <= 31 && 4 <= o.Length
    modifies o
    ensures o[..4] == Prefix(l) && o[4..] == old(o[4..])
  {
    o[0] := Map15LengthMask + 2;
    o[1] := TagUint8;
    o[2] := KeyUserName;
    o[3] := String31LengthMask + l;
  }

  /** The copy loops of auth.Bytes (messages.go:28-30 and 52-54): `src` written into `o`
      from index `at` on, one byte at a time. */
  method CopyInto(o: array<uint8>, at: nat, src: seq<uint8>)
    requires at + |src| <= o.Length
    modifies o
    ensures o[..at] == old(o[..at]) && o[at..at + |src|] == src
    ensures o[at + |src|..] == old(o[at + |src|..])
  {
    for i := 0 to |src|
      invariant forall k :: 0 <= k < at ==> o[k] == old(o[k])
      invariant forall k :: at + |src| <= k < o.Length ==> o[k] == old(o[k])
      invariant forall k :: 0 <= k < i ==> o[at + k] == src[k]
    {
      o[at + i] := src[i];
    }
  }

  /** The fifteen constant writes of auth.Bytes from `o[j+0]` to `o[j+14]` (messages.go:31-50). */
  method WriteMiddle(o: array<uint8>, j: nat)
    requires j + 15 <= o.Length
    modifies o
    ensures o[..j] == old(o[..j]) && o[j..j + 15] == Middle && o[j + 15..] == old(o[j + 15..])
  {
    ghost var before := o[..];
    WriteTupleHead(o, j);
    ghost var tuple := o[..];
    WriteMethodName(o, j + 3);
    ghost var name := o[..];
    WriteBinHead(o, j + 13);
    PrefixKept(o[..], name, j + 13, j + 3);
    PrefixKept(name, tuple, j + 3, j);
    PrefixKept(tuple, before, j, j);
    SuffixKept(tuple, before, j + 3, j + 15);
    SuffixKept(name, tuple, j + 13, j + 15);
    assert o[j..j + 15] == tuple[j..j + 3] + name[j + 3..j + 13] + o[j + 13..j + 15];
  }

  /** A body whose four pieces are where Layout puts them is Layout. */
  lemma Assembled(o: seq<uint8>, a: Auth)
    requires |a.user| <= 31 && |o| == 39 + |a.user|
    requires o[..4] == Prefix(|a.user|) && o[4..4 + |a.user|] == a.user
    requires o[4 + |a.user|..4 + |a.user| + 15] == Middle && o[4 + |a.user| + 15..] == a.scramble
    ensures o == Layout(a)
  {
    var j := 4 + |a.user|;
    assert o == o[..4] + o[4..j] + o[j..j + 15] + o[j + 15..];
  }

  /** Agreeing on the first n elements, two sequences agree on the first m <= n. */
  lemma PrefixKept(s: seq<uint8>, t: seq<uint8>, n: nat, m: nat)
    requires m <= n <= |s| == |t| && s[..n] == t[..n]
    ensures s[..m] == t[..m] && s[m..n] == t[m..n]
  {
    assert s[..m] == s[..n][..m] && t[..m] == t[..n][..m];
    assert s[m..n] == s[..n][m..] && t[m..n] == t[..n][m..];
  }

  /** Agreeing from index n on, two sequences agree from every m >= n on. */
  lemma SuffixKept(s: seq<uint8>, t: seq<uint8>, n: nat, m: nat)
    requires n <= m <= |s| == |t| && s[n..] == t[n..]
    ensures s[m..] == t[m..] && s[n..m] == t[n..m]
  {
    assert s[m..] == s[n..][m - n..] && t[m..] == t[n..][m - n..];
    assert s[n..m] == s[n..][..m - n] && t[n..m] == t[n..][..m - n];
  }

  /** `o[j+0]` to `o[j+2]`: the tuple key and the header of an array of two. */
  method WriteTupleHead(o: array<uint8>, j: nat)
    requires j + 3 <= o.Length
    modifies o
    ensures o[..j] == old(o[..j]) && o[j..j + 3] == Middle[..3] && o[j + 3..] == old(o[j + 3..])
  {
    o[j + 0] := TagUint8;
    o[j + 1] := KeyTuple;
    o[j + 2] := Array15LengthMask + 2;
  }

  /** `o[j+3]` to `o[j+12]`: the fixstr "chap-sha1". */
  method WriteMethodName(o: array<uint8>, i: nat)
    requires i + 10 <= o.Length
    modifies o
    ensures o[..i] == old(o[..i]) && o[i..i + 10] == Middle[3..13] && o[i + 10..] == old(o[i + 10..])
  {
    o[i + 0] := String31LengthMask + 9;
    o[i + 1] := 0x63;
    o[i + 2] := 0x68;
    o[i + 3] := 0x61;
    o[i + 4] := 0x70;
    o[i + 5] := 0x2d;
    o[i + 6] := 0x73;
    o[i + 7] := 0x68;
    o[i + 8] := 0x61;
    o[i + 9] := 0x31;
    IsMethodName(o[i..i + 10]);
  }

  /** Ten bytes written one by one are the fixstr "chap-sha1". */
  lemma IsMethodName(s: seq<uint8>)
    requires |s| == 10 && s[0] == 0xa9 && s[1] == 0x63 && s[2] == 0x68 && s[3] == 0x61 && s[4] == 0x70
    requires s[5] == 0x2d && s[6] == 0x73 && s[7] == 0x68 && s[8] == 0x61 && s[9] == 0x31
    ensures s == Middle[3..13]
  {
  }

  /** `o[j+13]` and `o[j+14]`: the bin8 header of a twenty-byte scramble. */
  method WriteBinHead(o: array<uint8>, i: nat)
    requires i + 2 <= o.Length
    modifies o
    ensures o[..i] == old(o[..i]) && o[i..i + 2] == Middle[13..] && o[i + 2..] == old(o[i + 2..])
  {
    o[i + 0] := Bin8;
    o[i + 1] := Sha1Size;
  }

  /** A sequence is its three pieces put back together. */
  lemma Split3(s: seq<uint8>, i: nat, k: nat)
    requires i <= k <= |s|
    ensures s == s[..i] + s[i..k] + s[k..]
  {
  }

  // ---------------------------------------------------------------------
  // What the layout promises
  // ---------------------------------------------------------------------

  /** The body is `39 + len(User)` bytes: the header, the name, the constant
      middle and the scramble, each where messages.go writes it. */
  lemma LayoutPositions(a: Auth)
    requires |a.user| <= 31
    ensures var o, l := Layout(a), |a.user|;
      && |o| == 39 + l
      && o[0] == 0x82 && o[1] == 0xcc && o[2] == 0x23 && o[3] == 0xa0 + l && o[3] % 32 == l
      && o[4..4 + l] == a.user
      && o[4 + l..4 + l + 13] == [0xcc, 0x21, 0x92, 0xa9] + ChapSha1
      && o[4 + l + 13] == 0xc4 && o[4 + l + 14] == 20
      && o[4 + l + 15..] == a.scramble
  {
    var o, l := Layout(a), |a.user|;
    assert o[..4] == Prefix(l);
    assert o[3] == 0xa0 + l;
  }

  /** Reading an AUTH body back: the name length from the low five bits of byte 3
      (`o[3] & 0x1f`), the name after it and the last twenty bytes as the scramble,
      provided every constant byte is where Layout puts it. */
  function ParseLayout(o: seq<uint8>): (a: Option<Auth>)
  {
    if |o| < 4 then None
    else
      var l := o[3] % 32;
      if |o| != 39 + l || o[..4] != Prefix(l) || o[4 + l..4 + l + 15] != Middle then None
      else Some(Auth(o[4..4 + l], o[4 + l + 15..]))
  }

  /** Layout loses nothing: ParseLayout gets the user name and scramble back. */
  lemma ParseLayoutInverts(a: Auth)
    requires |a.user| <= 31
    ensures ParseLayout(Layout(a)) == Some(a)
  {
    var o, l := Layout(a), |a.user|;
    assert o[3] % 32 == l;
    assert o[..4] == Prefix(l);
    assert o[4..4 + l] == a.user;
    assert o[4 + l..4 + l + 15] == Middle;
    assert o[4 + l + 15..] == a.scramble;
  }

  /** ParseLayout accepts only bodies Layout writes: the two are inverse. */
  lemma LayoutInvertsParse(o: seq<uint8>)
    requires ParseLayout(o).Some?
    ensures |ParseLayout(o).value.user| <= 31 && Layout(ParseLayout(o).value) == o
  {
    var l := o[3] % 32;
    Split3(o[4..], l, l + 15);
    assert o == o[..4] + o[4..];
    assert o[4..][..l] == o[4..4 + l] && o[4..][l..l + 15] == o[4 + l..4 + l + 15];
    assert o[4..][l + 15..] == o[4 + l + 15..];
  }
}
