/** An optional value: Python's `None` or a present value. */
module Options {
  datatype Option<T> = None | Some(value: T)
}

/**
 * Identification of the user holding the RFID card: the card's serial number (the bytes
 * `anticoll` returns) written as upper-case hex, the poll for a card during the identity
 * window, and the lookup of the result in the registry of known users.
 */
module Identity {
  import opened Options

  /** One byte of a card serial number. */
  type Byte = x: int | 0 <= x < 256

  const HexDigits: string := "0123456789ABCDEF"

  /** `"{:02X}".format(b)`: two upper-case hex digits, most significant first. */
  function HexByte(b: Byte): string
  {
    [HexDigits[b / 16], HexDigits[b % 16]]
  }

  /** `"".join("{:02X}".format(i) for i in raw_uid)`. */
  function UidToString(raw: seq<Byte>): (s: string)
    ensures |s| == 2 * |raw|
  {
    if raw == [] then "" else HexByte(raw[0]) + UidToString(raw[1..])
  }

  /** The value of an upper-case hex digit, or -1 for any other character. */
  function HexValue(c: char): (d: int)
    ensures -1 <= d < 16
    ensures d >= 0 ==> HexDigits[d] == c
  {
    if '0' <= c <= '9' then c as int - '0' as int
    else if 'A' <= c <= 'F' then c as int - 'A' as int + 10
    else -1
  }

  /** Reading a digit back gives the value it was written for. */
  lemma HexValueOfDigit(d: int)
    requires 0 <= d < 16
    ensures HexValue(HexDigits[d]) == d
  {
  }

  /** The two digits of a byte read back as its high and low nibble. */
  lemma HexByteValues(b: Byte)
    ensures HexValue(HexByte(b)[0]) == b / 16 && HexValue(HexByte(b)[1]) == b % 16
  {
    HexValueOfDigit(b / 16);
    HexValueOfDigit(b % 16);
  }

  /** Reads a string of hex digit pairs back into the bytes it spells; the inverse of UidToString. */
  function ParseUid(s: string): Option<seq<Byte>>
    decreases |s|
  {
    if |s| == 0 then Some([])
    else if |s| == 1 then None
    else
      var hi, lo := HexValue(s[0]), HexValue(s[1]);
      if hi < 0 || lo < 0 then None
      else match ParseUid(s[2..])
        case None => None
        case Some(rest) => Some([hi * 16 + lo] + rest)
  }

  /** Parsing the string of a serial number gives back that serial number. */
  lemma {:induction false} ParseUidString(raw: seq<Byte>)
    ensures ParseUid(UidToString(raw)) == Some(raw)
  {
    if raw != [] {
      var b := raw[0];
      var s, t := UidToString(raw), UidToString(raw[1..]);
      assert s == HexByte(b) + t;
      assert s[0] == HexByte(b)[0] && s[1] == HexByte(b)[1] && s[2..] == t;
      HexByteValues(b);
      ParseUidString(raw[1..]);
      assert (b / 16) * 16 + b % 16 == b;
      assert [b] + raw[1..] == raw;
    }
  }

  /** Encoding one byte in front of a serial number puts its two digits in front of the string. */
  lemma UidToStringCons(b: Byte, raw: seq<Byte>)
    ensures UidToString([b] + raw) == HexByte(b) + UidToString(raw)
  {
    assert ([b] + raw)[1..] == raw;
  }

  /** Two hex digits, read as a byte and written again, are the same two digits. */
  lemma HexByteOfDigits(c0: char, c1: char)
    requires HexValue(c0) >= 0 && HexValue(c1) >= 0
    ensures 0 <= HexValue(c0) * 16 + HexValue(c1) < 256
    ensures HexByte(HexValue(c0) * 16 + HexValue(c1)) == [c0, c1]
  {
    var hi, lo := HexValue(c0), HexValue(c1);
    assert (hi * 16 + lo) / 16 == hi;
    assert (hi * 16 + lo) % 16 == lo;
  }

  /** A string that parses starts with two hex digits, and its tail parses too. */
  lemma ParseUidStep(s: string)
    requires |s| >= 2 && ParseUid(s).Some?
    ensures HexValue(s[0]) >= 0 && HexValue(s[1]) >= 0 && ParseUid(s[2..]).Some?
    ensures ParseUid(s).value == [HexValue(s[0]) * 16 + HexValue(s[1])] + ParseUid(s[2..]).value
  {
  }

  /** Every string that parses is the string of the serial number it parses to. */
  lemma {:induction false} StringOfParsedUid(s: string, raw: seq<Byte>)
    requires ParseUid(s) == Some(raw)
    ensures UidToString(raw) == s
  {
    if |s| >= 2 {
      ParseUidStep(s);
      var rest := ParseUid(s[2..]).value;
      HexByteOfDigits(s[0], s[1]);
      var b: Byte := HexValue(s[0]) * 16 + HexValue(s[1]);
      StringOfParsedUid(s[2..], rest);
      UidToStringCons(b, rest);
      assert s == [s[0], s[1]] + s[2..];
    } else {
      assert |s| == 0;
    }
  }

  /** Distinct serial numbers give distinct strings. */
  lemma UidToStringInjective(raw: seq<Byte>, raw': seq<Byte>)
    requires UidToString(raw) == UidToString(raw')
    ensures raw == raw'
  {
    ParseUidString(raw);
    ParseUidString(raw');
  }

  // ---------------------------------------------------------------------------
  // Known users
  // ---------------------------------------------------------------------------

  /** `known_users`: the registry of card strings and their holders' names. */
  const KnownUsers: map<string, string> := map[
    "CB2CBD4B11" := "Anindya",
    "83F35DFCD1" := "Nittya",
    "CDE781A4" := "Charlie"
  ]

  /** The card registered for Anindya: serial number CB 2C BD 4B 11. */
  lemma AnindyaCardWelcomed()
    ensures Classify(Some(UidToString([0xCB, 0x2C, 0xBD, 0x4B, 0x11]))) == Welcome("Anindya")
  {
    assert HexByte(0xCB) == "CB";
    assert HexByte(0x2C) == "2C";
    assert HexByte(0xBD) == "BD";
    assert HexByte(0x4B) == "4B";
    assert HexByte(0x11) == "11";
    assert UidToString([]) == "";
    UidToStringCons(0x11, []);
    assert UidToString([0x11]) == "11";
    UidToStringCons(0x4B, [0x11]);
    assert UidToString([0x4B, 0x11]) == "4B11";
    UidToStringCons(0xBD, [0x4B, 0x11]);
    assert UidToString([0xBD, 0x4B, 0x11]) == "BD4B11";
    UidToStringCons(0x2C, [0xBD, 0x4B, 0x11]);
    assert UidToString([0x2C, 0xBD, 0x4B, 0x11]) == "2CBD4B11";
    UidToStringCons(0xCB, [0x2C, 0xBD, 0x4B, 0x11]);
    assert UidToString([0xCB, 0x2C, 0xBD, 0x4B, 0x11]) == "CB2CBD4B11";
    assert "CB2CBD4B11" in KnownUsers;
  }

  /** The card registered for Nittya: serial number 83 F3 5D FC D1. */
  lemma NittyaCardWelcomed()
    ensures Classify(Some(UidToString([0x83, 0xF3, 0x5D, 0xFC, 0xD1]))) == Welcome("Nittya")
  {
    assert HexByte(0x83) == "83";
    assert HexByte(0xF3) == "F3";
    assert HexByte(0x5D) == "5D";
    assert HexByte(0xFC) == "FC";
    assert HexByte(0xD1) == "D1";
    assert UidToString([]) == "";
    UidToStringCons(0xD1, []);
    assert UidToString([0xD1]) == "D1";
    UidToStringCons(0xFC, [0xD1]);
    assert UidToString([0xFC, 0xD1]) == "FCD1";
    UidToStringCons(0x5D, [0xFC, 0xD1]);
    assert UidToString([0x5D, 0xFC, 0xD1]) == "5DFCD1";
    UidToStringCons(0xF3, [0x5D, 0xFC, 0xD1]);
    assert UidToString([0xF3, 0x5D, 0xFC, 0xD1]) == "F35DFCD1";
    UidToStringCons(0x83, [0xF3, 0x5D, 0xFC, 0xD1]);
    assert UidToString([0x83, 0xF3, 0x5D, 0xFC, 0xD1]) == "83F35DFCD1";
    assert "83F35DFCD1" in KnownUsers;
  }

  /** The card registered for Charlie: the 4-byte serial number CD E7 81 A4. */
  lemma CharlieCardWelcomed()
    ensures Classify(Some(UidToString([0xCD, 0xE7, 0x81, 0xA4]))) == Welcome("Charlie")
  {
    assert HexByte(0xCD) == "CD";
    assert HexByte(0xE7) == "E7";
    assert HexByte(0x81) == "81";
    assert HexByte(0xA4) == "A4";
    assert UidToString([]) == "";
    UidToStringCons(0xA4, []);
    assert UidToString([0xA4]) == "A4";
    UidToStringCons(0x81, [0xA4]);
    assert UidToString([0x81, 0xA4]) == "81A4";
    UidToStringCons(0xE7, [0x81, 0xA4]);
    assert UidToString([0xE7, 0x81, 0xA4]) == "E781A4";
    UidToStringCons(0xCD, [0xE7, 0x81, 0xA4]);
    assert UidToString([0xCD, 0xE7, 0x81, 0xA4]) == "CDE781A4";
    assert "CDE781A4" in KnownUsers;
  }

  /** What the display says after the card check. */
  datatype Greeting = Welcome(name: string) | PlaceCardProperly | UndefinedUser

  /** The card check: a known uid is welcomed by name, no uid asks for the card again, any other uid is undefined. */
  function Classify(uid: Option<string>): (g: Greeting)
    ensures g.Welcome? <==> uid.Some? && uid.value in KnownUsers
    ensures g.Welcome? ==> g.name == KnownUsers[uid.value]
    ensures g == PlaceCardProperly <==> uid == None
    ensures g == UndefinedUser <==> uid.Some? && uid.value !in KnownUsers
  {
    if uid.Some? && uid.value in KnownUsers then Welcome(KnownUsers[uid.value])
    else if uid == None then PlaceCardProperly
    else UndefinedUser
  }

  // ---------------------------------------------------------------------------
  // The poll for a card
  // ---------------------------------------------------------------------------

  /** The uid the poll loop assigns after every unsuccessful poll. */
  const ForcedUid: string := "CB2CBD4B11"

  /**
   * The polls made during the identity window, in order: Some(serial) when both
   * `request` and `anticoll` answer OK, None otherwise.
   */
  type Polls = seq<Option<seq<Byte>>>

  /** The serial number of the first successful poll, if any. */
  function FirstRead(polls: Polls): Option<seq<Byte>>
  {
    if |polls| == 0 then None
    else if polls[0].Some? then polls[0]
    else FirstRead(polls[1..])
  }

  /** The uid the poll loop leaves: the first card read, else the forced uid once any poll has failed. */
  function PolledUid(polls: Polls): Option<string>
  {
    match FirstRead(polls)
    case Some(raw) => Some(UidToString(raw))
    case None => if |polls| == 0 then None else Some(ForcedUid)
  }

  /** The first read is the read of the first successful poll. */
  lemma {:induction false} FirstReadAt(polls: Polls, i: nat)
    requires i < |polls| && polls[i].Some?
    requires forall k :: 0 <= k < i ==> polls[k].None?
    ensures FirstRead(polls) == polls[i]
  {
    if i > 0 {
      FirstReadAt(polls[1..], i - 1);
    }
  }

  /** There is no first read exactly when every poll failed. */
  lemma {:induction false} FirstReadNoneIff(polls: Polls)
    ensures FirstRead(polls) == None <==> forall k :: 0 <= k < |polls| ==> polls[k].None?
  {
    if |polls| > 0 {
      FirstReadNoneIff(polls[1..]);
      assert forall k :: 1 <= k < |polls| ==> polls[k] == polls[1..][k - 1];
    }
  }

  /**
   * The poll loop: each successful poll's serial number becomes the uid and ends the
   * loop; each failed poll leaves the forced uid.
   */
  method PollUid(polls: Polls) returns (uid: Option<string>)
    ensures uid == PolledUid(polls)
  {
    uid := None;
    var i := 0;
    while i < |polls|
      invariant 0 <= i <= |polls|
      invariant forall k :: 0 <= k < i ==> polls[k].None?
      invariant uid == if i == 0 then None else Some(ForcedUid)
    {
      match polls[i]
      case Some(raw) =>
        FirstReadAt(polls, i);
        uid := Some(UidToString(raw));
        return;
      case None =>
      uid := Some(ForcedUid);
      i := i + 1;
    }
    FirstReadNoneIff(polls);
  }

  /** Once a poll has been made, the loop always leaves a uid. */
  lemma PolledUidPresent(polls: Polls)
    requires |polls| > 0
    ensures PolledUid(polls).Some?
  {
  }

  /** When every poll fails, the forced uid welcomes its registered holder. */
  lemma FailedPollsWelcomeForcedUser(polls: Polls)
    requires |polls| > 0
    requires forall k :: 0 <= k < |polls| ==> polls[k].None?
    ensures Classify(PolledUid(polls)) == Welcome("Anindya")
  {
    FirstReadNoneIff(polls);
  }

  /** When a card is read, the user is welcomed exactly when its string is registered. */
  lemma ReadCardClassified(polls: Polls, i: nat)
    requires i < |polls| && polls[i].Some?
    requires forall k :: 0 <= k < i ==> polls[k].None?
    ensures Classify(PolledUid(polls)).Welcome? <==> UidToString(polls[i].value) in KnownUsers
  {
    FirstReadAt(polls, i);
  }
}
