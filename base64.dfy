/** The standard base64 encoding of section 4 of RFC 4648 (alphabet A-Z a-z 0-9
    + /, padded with '='), as Go's `base64.StdEncoding` implements it: the
    encoder, the non-strict decoder (which skips CR and LF anywhere and does
    not insist that unused bits are zero), and the credential normalisation
    the REST and WebDAV constructors apply. */
module Base64 {
  import opened Http

  const Pad: byte := 61   // '='
  const LF: byte := 10
  const CR: byte := 13

  /** The alphabet character for a 6-bit value. */
  function Sextet(v: int): (c: byte)
    requires 0 <= v < 64
    ensures c != Pad && c != LF && c != CR && ValueOf(c) == v
  {
    if v < 26 then 65 + v            // 'A'..'Z'
    else if v < 52 then 97 + v - 26  // 'a'..'z'
    else if v < 62 then 48 + v - 52  // '0'..'9'
    else if v == 62 then 43          // '+'
    else 47                          // '/'
  }

  /** The 6-bit value of an alphabet character, or -1 for any other byte
      (padding, line breaks and everything else). */
  function ValueOf(c: byte): (v: int)
    ensures -1 <= v < 64
  {
    if 65 <= c <= 90 then c - 65
    else if 97 <= c <= 122 then c - 97 + 26
    else if 48 <= c <= 57 then c - 48 + 52
    else if c == 43 then 62
    else if c == 47 then 63
    else -1
  }

  /** `Sextet` and `ValueOf` are inverse on the alphabet, in both directions. */
  lemma SextetValue(v: int, c: byte)
    ensures 0 <= v < 64 ==> ValueOf(Sextet(v)) == v
    ensures ValueOf(c) >= 0 ==> Sextet(ValueOf(c)) == c
  {
  }

  /** The padded encoding of `b`: every three bytes become four characters, and a
      final group of one or two bytes is padded to four with '='. */
  function Encode(b: Bytes): (s: Bytes)
    ensures |s| == (|b| + 2) / 3 * 4
    decreases |b|
  {
    if |b| == 0 then []
    else if |b| == 1 then
      [Sextet(b[0] / 4), Sextet(b[0] % 4 * 16), Pad, Pad]
    else if |b| == 2 then
      [Sextet(b[0] / 4), Sextet(b[0] % 4 * 16 + b[1] / 16), Sextet(b[1] % 16 * 4), Pad]
    else
      [Sextet(b[0] / 4), Sextet(b[0] % 4 * 16 + b[1] / 16), Sextet(b[1] % 16 * 4 + b[2] / 64), Sextet(b[2] % 64)]
      + Encode(b[3..])
  }

  /** `b` without its line breaks, which the decoder ignores wherever they are. */
  function Strip(b: Bytes): (r: Bytes)
    ensures LF !in r && CR !in r
    decreases |b|
  {
    if b == [] then []
    else if b[0] == LF || b[0] == CR then Strip(b[1..])
    else [b[0]] + Strip(b[1..])
  }

  /** Standard base64 text without line breaks, as the decoder accepts it: whole
      groups of four characters of the alphabet, except that the last group may
      end in "x=" or "=="; so '=' appears only in the last two places, and never
      before a character that is not '='. */
  predicate WellFormed(t: Bytes)
  {
    && |t| % 4 == 0
    && (forall i :: 0 <= i < |t| ==> ValueOf(t[i]) >= 0 || (t[i] == Pad && i >= |t| - 2))
    && (|t| >= 2 && t[|t| - 2] == Pad ==> t[|t| - 1] == Pad)
  }

  /** A first group of four alphabet characters does not affect well-formedness. */
  lemma WellFormedAfterGroup(t: Bytes)
    requires |t| >= 4 && ValueOf(t[0]) >= 0 && ValueOf(t[1]) >= 0 && ValueOf(t[2]) >= 0 && ValueOf(t[3]) >= 0
    ensures WellFormed(t) <==> WellFormed(t[4..])
  {
    var u := t[4..];
    if WellFormed(u) {
      forall i | 0 <= i < |t| ensures ValueOf(t[i]) >= 0 || (t[i] == Pad && i >= |t| - 2) {
        if i >= 4 { assert t[i] == u[i - 4]; }
      }
    }
    if WellFormed(t) {
      forall i | 0 <= i < |u| ensures ValueOf(u[i]) >= 0 || (u[i] == Pad && i >= |u| - 2) {
        assert u[i] == t[i + 4];
      }
    }
  }

  /** The encoding is well-formed. */
  lemma {:induction false} EncodeWellFormed(b: Bytes)
    ensures WellFormed(Encode(b))
    decreases |b|
  {
    var s := Encode(b);
    if |b| >= 3 {
      EncodeWellFormed(b[3..]);
      assert s[4..] == Encode(b[3..]);
      assert ValueOf(s[0]) >= 0 && ValueOf(s[1]) >= 0 && ValueOf(s[2]) >= 0 && ValueOf(s[3]) >= 0;
      WellFormedAfterGroup(s);
    } else if |b| > 0 {
      assert ValueOf(s[0]) >= 0 && ValueOf(s[1]) >= 0;
    }
  }

  /** Whole groups of three bytes are encoded without '='. */
  lemma {:induction false} EncodeUnpadded(b: Bytes)
    requires |b| % 3 == 0
    ensures Pad !in Encode(b)
    decreases |b|
  {
    if |b| > 0 {
      EncodeUnpadded(b[3..]);
    }
  }

  /** A final group of one byte ends in "==", and the four bits of the character
      before them that no byte fills are zero. */
  lemma {:induction false} EncodeOneLeft(b: Bytes)
    requires |b| % 3 == 1
    ensures var s := Encode(b); s[|s| - 2..] == [Pad, Pad] && ValueOf(s[|s| - 3]) % 16 == 0
    decreases |b|
  {
    var s := Encode(b);
    if |b| == 1 {
      var x := b[0] % 4;
      assert s[1] == Sextet(x * 16);
      assert (x * 16) % 16 == 0;
    } else {
      var rest := Encode(b[3..]);
      EncodeOneLeft(b[3..]);
      assert s[4..] == rest;
      assert s[|s| - 3..] == rest[|rest| - 3..];
    }
  }

  /** A final group of two bytes ends in one '=', and the two bits of the
      character before it that no byte fills are zero. */
  lemma {:induction false} EncodeTwoLeft(b: Bytes)
    requires |b| % 3 == 2
    ensures var s := Encode(b); s[|s| - 1] == Pad && ValueOf(s[|s| - 2]) >= 0 && ValueOf(s[|s| - 2]) % 4 == 0
    decreases |b|
  {
    var s := Encode(b);
    if |b| == 2 {
      var x := b[1] % 16;
      assert s[2] == Sextet(x * 4);
      assert (x * 4) % 4 == 0;
    } else {
      var rest := Encode(b[3..]);
      EncodeTwoLeft(b[3..]);
      assert s[4..] == rest;
      assert s[|s| - 2..] == rest[|rest| - 2..];
    }
  }

  /** The encoding is the canonical standard text: well-formed, with '=' only
      when the length is not a multiple of three, once per byte missing from the
      last group, and zero bits wherever no byte fills the last character. */
  lemma EncodeCanonical(b: Bytes)
    ensures var s := Encode(b);
      && WellFormed(s)
      && (|b| % 3 == 0 ==> Pad !in s)
      && (|b| % 3 == 1 ==> s[|s| - 2..] == [Pad, Pad] && ValueOf(s[|s| - 3]) % 16 == 0)
      && (|b| % 3 == 2 ==> s[|s| - 1] == Pad && ValueOf(s[|s| - 2]) >= 0 && ValueOf(s[|s| - 2]) % 4 == 0)
  {
    EncodeWellFormed(b);
    if |b| % 3 == 0 {
      EncodeUnpadded(b);
    } else if |b| % 3 == 1 {
      EncodeOneLeft(b);
    } else {
      EncodeTwoLeft(b);
    }
  }

  /** Decoding of text with the line breaks already removed: whole groups of four,
      where only the last may end in "x=" or "=="; anything else is an error. */
  function DecodeGroups(t: Bytes): (r: Option<Bytes>)
    ensures r.Some? ==> |t| % 4 == 0 && |r.value| <= |t| / 4 * 3 && |t| / 4 * 3 <= |r.value| + 2
    decreases |t|
  {
    if |t| == 0 then Some([])
    else if |t| < 4 then None
    else
      var v0, v1, v2, v3 := ValueOf(t[0]), ValueOf(t[1]), ValueOf(t[2]), ValueOf(t[3]);
      if v0 < 0 || v1 < 0 then None
      else if v2 >= 0 && v3 >= 0 then
        match DecodeGroups(t[4..])
        case None => None
        case Some(rest) => Some([v0 * 4 + v1 / 16, v1 % 16 * 16 + v2 / 4, v2 % 4 * 64 + v3] + rest)
      else if |t| != 4 then None
      else if v2 >= 0 && t[3] == Pad then Some([v0 * 4 + v1 / 16, v1 % 16 * 16 + v2 / 4])
      else if t[2] == Pad && t[3] == Pad then Some([v0 * 4 + v1 / 16])
      else None
  }

  /** The decoder accepts exactly the well-formed texts. */
  lemma {:induction false} DecodeGroupsAccepts(t: Bytes)
    ensures DecodeGroups(t).Some? <==> WellFormed(t)
    decreases |t|
  {
    if |t| >= 4 {
      var v0, v1, v2, v3 := ValueOf(t[0]), ValueOf(t[1]), ValueOf(t[2]), ValueOf(t[3]);
      if v0 >= 0 && v1 >= 0 && v2 >= 0 && v3 >= 0 {
        DecodeGroupsAccepts(t[4..]);
        WellFormedAfterGroup(t);
      } else if v0 < 0 {
        assert !(ValueOf(t[0]) >= 0 || (t[0] == Pad && 0 >= |t| - 2));
      } else if v1 < 0 {
        assert !(ValueOf(t[1]) >= 0 || (t[1] == Pad && 1 >= |t| - 2));
      } else if |t| % 4 == 0 && |t| != 4 {
        if v2 < 0 {
          assert !(ValueOf(t[2]) >= 0 || (t[2] == Pad && 2 >= |t| - 2));
        } else {
          assert !(ValueOf(t[3]) >= 0 || (t[3] == Pad && 3 >= |t| - 2));
        }
      }
    }
  }

  /** `base64.StdEncoding.DecodeString`: the decoded bytes, or `None` when it
      returns an error. Line breaks aside, it accepts exactly the well-formed
      texts: a byte outside the alphabet, a '=' before the last two places or a
      character after padding is refused. Each group gives three bytes, except
      that the last may give one or two. */
  function Decode(s: Bytes): (r: Option<Bytes>)
    ensures r.Some? <==> WellFormed(Strip(s))
    ensures r.Some? ==> var t := Strip(s);
      |r.value| <= |t| / 4 * 3 && |t| / 4 * 3 <= |r.value| + 2
  {
    DecodeGroupsAccepts(Strip(s));
    DecodeGroups(Strip(s))
  }

  lemma {:induction false} StripNoBreaks(b: Bytes)
    requires LF !in b && CR !in b
    ensures Strip(b) == b
    decreases |b|
  {
    if b != [] {
      assert b[0] in b;
      assert LF !in b[1..] && CR !in b[1..] by {
        forall i | 0 <= i < |b[1..]| ensures b[1..][i] != LF && b[1..][i] != CR { assert b[1..][i] == b[i + 1]; }
      }
      StripNoBreaks(b[1..]);
      assert [b[0]] + b[1..] == b;
    }
  }

  lemma {:induction false} EncodeNoBreaks(b: Bytes)
    ensures LF !in Encode(b) && CR !in Encode(b)
    decreases |b|
  {
    if |b| > 2 {
      EncodeNoBreaks(b[3..]);
    }
  }

  /** One full group of three bytes survives the trip through four characters. */
  lemma GroupRoundTrip(x: byte, y: byte, z: byte)
    ensures var v0, v1, v2, v3 := x / 4, x % 4 * 16 + y / 16, y % 16 * 4 + z / 64, z % 64;
      v0 * 4 + v1 / 16 == x && v1 % 16 * 16 + v2 / 4 == y && v2 % 4 * 64 + v3 == z
  {
  }

  /** Four alphabet characters decode as one group of three bytes, followed by the rest. */
  lemma DecodeFullGroup(v0: int, v1: int, v2: int, v3: int, rest: Bytes)
    requires 0 <= v0 < 64 && 0 <= v1 < 64 && 0 <= v2 < 64 && 0 <= v3 < 64
    ensures DecodeGroups([Sextet(v0), Sextet(v1), Sextet(v2), Sextet(v3)] + rest) ==
      match DecodeGroups(rest)
      case None => None
      case Some(r) => Some([v0 * 4 + v1 / 16, v1 % 16 * 16 + v2 / 4, v2 % 4 * 64 + v3] + r)
  {
    var t := [Sextet(v0), Sextet(v1), Sextet(v2), Sextet(v3)] + rest;
    SextetValue(v0, 0);
    SextetValue(v1, 0);
    SextetValue(v2, 0);
    SextetValue(v3, 0);
    assert t[4..] == rest;
  }

  /** Three alphabet characters and one '=' decode as two bytes. */
  lemma DecodeTwoBytes(v0: int, v1: int, v2: int)
    requires 0 <= v0 < 64 && 0 <= v1 < 64 && 0 <= v2 < 64
    ensures DecodeGroups([Sextet(v0), Sextet(v1), Sextet(v2), Pad]) == Some([v0 * 4 + v1 / 16, v1 % 16 * 16 + v2 / 4])
  {
    SextetValue(v0, 0);
    SextetValue(v1, 0);
    SextetValue(v2, 0);
    assert ValueOf(Pad) == -1;
  }

  /** Two alphabet characters and "==" decode as one byte. */
  lemma DecodeOneByte(v0: int, v1: int)
    requires 0 <= v0 < 64 && 0 <= v1 < 64
    ensures DecodeGroups([Sextet(v0), Sextet(v1), Pad, Pad]) == Some([v0 * 4 + v1 / 16])
  {
    SextetValue(v0, 0);
    SextetValue(v1, 0);
    assert ValueOf(Pad) == -1;
  }

  /** A final single byte survives the trip through "xx==". */
  lemma EncodeOneRoundTrip(x: byte)
    ensures DecodeGroups(Encode([x])) == Some([x])
  {
    var v0, v1 := x / 4, x % 4 * 16;
    assert Encode([x]) == [Sextet(v0), Sextet(v1), Pad, Pad];
    DecodeOneByte(v0, v1);
    GroupRoundTrip(x, 0, 0);
  }

  /** A final pair of bytes survives the trip through "xxx=". */
  lemma EncodeTwoRoundTrip(x: byte, y: byte)
    ensures DecodeGroups(Encode([x, y])) == Some([x, y])
  {
    var v0, v1, v2 := x / 4, x % 4 * 16 + y / 16, y % 16 * 4;
    assert Encode([x, y]) == [Sextet(v0), Sextet(v1), Sextet(v2), Pad];
    DecodeTwoBytes(v0, v1, v2);
    GroupRoundTrip(x, y, 0);
  }

  /** The encoder's output decodes back to its input. */
  lemma {:induction false} DecodeGroupsEncode(b: Bytes)
    ensures DecodeGroups(Encode(b)) == Some(b)
    decreases |b|
  {
    if |b| == 1 {
      EncodeOneRoundTrip(b[0]);
      assert [b[0]] == b;
    } else if |b| == 2 {
      EncodeTwoRoundTrip(b[0], b[1]);
      assert [b[0], b[1]] == b;
    } else if |b| > 2 {
      var x, y, z := b[0], b[1], b[2];
      assert Encode(b) == [Sextet(x / 4), Sextet(x % 4 * 16 + y / 16), Sextet(y % 16 * 4 + z / 64), Sextet(z % 64)] + Encode(b[3..]);
      DecodeGroupsEncode(b[3..]);
      DecodeFullGroup(x / 4, x % 4 * 16 + y / 16, y % 16 * 4 + z / 64, z % 64, Encode(b[3..]));
      GroupRoundTrip(x, y, z);
      assert [x, y, z] + b[3..] == b;
    }
  }

  /** Round trip: what the encoder produces, the decoder accepts and decodes back. */
  lemma DecodeEncode(b: Bytes)
    ensures Decode(Encode(b)) == Some(b)
  {
    EncodeNoBreaks(b);
    StripNoBreaks(Encode(b));
    DecodeGroupsEncode(b);
  }

  /** The token `NewRestClient` and `NewWebdavClient` store: the input when it
      already decodes as standard base64, its standard encoding otherwise (which
      has no line breaks and decodes back to the input). */
  function Normalize(token: Bytes): (t: Bytes)
    ensures Decode(token).Some? ==> t == token
    ensures Decode(token).None? ==> t == Encode(token) && Decode(t) == Some(token)
    ensures Decode(t).Some?
  {
    if Decode(token).Some? then token
    else
      DecodeEncode(token);
      Encode(token)
  }

  /** Normalising twice is normalising once: the stored token is already valid base64. */
  lemma NormalizeIdempotent(token: Bytes)
    ensures Normalize(Normalize(token)) == Normalize(token)
  {
  }

  /** The Authorization value the REST and WebDAV constructors store: "Basic "
      followed by a token that always decodes, which is the input itself when the
      input already decodes and otherwise the standard encoding of the input. */
  function Credential(token: Bytes): (h: Bytes)
    ensures |h| >= 6 && h[..6] == Ascii("Basic ")
    ensures Decode(h[6..]).Some?
    ensures Decode(token).Some? ==> h[6..] == token
    ensures Decode(token).None? ==> h[6..] == Encode(token) && Decode(h[6..]) == Some(token)
  {
    var t := Normalize(token);
    assert Basic(t)[6..] == t;
    Basic(t)
  }

  /** Feeding a constructor the token it would store stores the same value again. */
  lemma CredentialStable(token: Bytes)
    ensures Credential(Normalize(token)) == Credential(token)
  {
    NormalizeIdempotent(token);
  }

  /** A token that does not decode is never stored as it is. */
  lemma {:induction false} CredentialRewrites(token: Bytes)
    requires Decode(token).None?
    ensures Credential(token) != Basic(token)
  {
    assert Basic(token)[6..] == token;
  }
}
