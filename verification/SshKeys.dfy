/** The session's SSH key pair in OpenSSH's formats (internal/controller/ssh_keys.go),
    with the readers they have to satisfy: the string type of section 5 of RFC 4251, the
    ssh-ed25519 blob of section 4 of RFC 8709, and PROTOCOL.key of OpenSSH. */
module SshKeys {
  import opened Wrappers
  import opened Base64

  const WORD := 0x1_0000_0000

  function Ascii(s: string): (b: seq<Byte>)
    requires forall i :: 0 <= i < |s| ==> s[i] < 128 as char
    ensures |b| == |s|
  {
    seq(|s|, i requires 0 <= i < |s| => s[i] as int)
  }

  const KEY_TYPE: seq<Byte> := Ascii("ssh-ed25519")
  const NONE_NAME: seq<Byte> := Ascii("none")
  const MAGIC: seq<Byte> := Ascii("openssh-key-v1") + [0]

  // ---------------------------------------------------------------- the string type

  /** Big-endian uint32; larger numbers are truncated, as Go's conversion does. */
  function Uint32(n: nat): (b: seq<Byte>)
    ensures |b| == 4
  {
    [ByteAt(n, 0x100_0000), ByteAt(n, 0x1_0000), ByteAt(n, 0x100), ByteAt(n, 1)]
  }

  function ByteAt(n: nat, unit: int): Byte
    requires unit > 0
  {
    var quotient: int := n / unit;
    quotient % 256
  }

  function FromUint32(b: seq<Byte>): nat
    requires |b| == 4
  {
    var b0: int, b1: int, b2: int := b[0], b[1], b[2];
    b0 * 0x100_0000 + b1 * 0x1_0000 + b2 * 0x100 + b[3]
  }

  lemma Uint32RoundTrip(n: nat)
    ensures FromUint32(Uint32(n)) == n % WORD
  {
    assert n / 0x100 / 0x100 == n / 0x1_0000 && n / 0x1_0000 / 0x100 == n / 0x100_0000 && n / 0x100_0000 / 0x100 == n / WORD;
  }

  function Field(field: seq<Byte>): seq<Byte> {
    Uint32(|field|) + field
  }

  function SshString(b: seq<Byte>, field: seq<Byte>): seq<Byte> {
    b + Field(field)
  }

  function ReadString(b: seq<Byte>): Option<(seq<Byte>, seq<Byte>)> {
    if |b| < 4 then None
    else
      var n := FromUint32(b[..4]);
      if |b| - 4 < n then None else Some((b[4..4 + n], b[4 + n..]))
  }

  /** A reader gets back exactly what was written, and what follows it, if and only if the
      field's length fits in 32 bits. */
  lemma StringRoundTrip(field: seq<Byte>, rest: seq<Byte>)
    ensures ReadString(SshString([], field) + rest) == Some((field, rest)) <==> |field| < WORD
    ensures SshString([], field) == Field(field)
  {
    FieldRead(field, rest);
    assert [] + Field(field) == Field(field);
  }

  lemma FieldRead(field: seq<Byte>, rest: seq<Byte>)
    ensures ReadString(Field(field) + rest) == Some((field, rest)) <==> |field| < WORD
    ensures |field| >= WORD ==> ReadString(Field(field) + rest).Some? && |ReadString(Field(field) + rest).value.1| > |rest|
  {
    var b := Field(field) + rest;
    Uint32RoundTrip(|field|);
    assert b[..4] == Uint32(|field|);
    assert b[4..] == field + rest;
    if |field| < WORD {
      Split(field, rest);
      assert b[4..4 + |field|] == b[4..][..|field|] && b[4 + |field|..] == b[4..][|field|..];
    }
  }

  lemma Split(a: seq<Byte>, b: seq<Byte>)
    ensures (a + b)[..|a|] == a && (a + b)[|a|..] == b
  {
  }

  lemma Nest(a: seq<Byte>, b: seq<Byte>, c: seq<Byte>, d: seq<Byte>, e: seq<Byte>)
    ensures a + b + c + d + e == a + (b + (c + (d + e)))
  {
  }

  // ---------------------------------------------------------------- the encoders

  function PublicKeyBlob(pub: seq<Byte>): seq<Byte> {
    SshString(SshString([], KEY_TYPE), pub)
  }

  /** Enough of 1, 2, 3, ... to fill up to a multiple of 8. */
  function Padding(length: nat): (p: seq<Byte>)
    ensures |p| <= 7 && (length + |p|) % 8 == 0
    ensures forall i :: 0 <= i < |p| ==> p[i] == i + 1
  {
    seq((8 - length % 8) % 8, i => i + 1)
  }

  function Unpadded(check: seq<Byte>, pub: seq<Byte>, priv: seq<Byte>, comment: seq<Byte>): seq<Byte> {
    SshString(SshString(SshString(SshString(check + check, KEY_TYPE), pub), priv), comment)
  }

  function PrivateSection(check: seq<Byte>, pub: seq<Byte>, priv: seq<Byte>, comment: seq<Byte>): seq<Byte> {
    var u := Unpadded(check, pub, priv, comment);
    u + Padding(|u|)
  }

  function Header(pub: seq<Byte>): seq<Byte> {
    SshString(SshString(SshString(SshString(MAGIC, NONE_NAME), NONE_NAME), []) + Uint32(1), PublicKeyBlob(pub))
  }

  function PrivateKeyBlob(check: seq<Byte>, pub: seq<Byte>, priv: seq<Byte>, comment: seq<Byte>): seq<Byte> {
    SshString(Header(pub), PrivateSection(check, pub, priv, comment))
  }

  /** The padding loop of openSSHPrivateKey. */
  method Pad(u: seq<Byte>) returns (section: seq<Byte>)
    ensures section == u + Padding(|u|)
  {
    ghost var p := Padding(|u|);
    section := u;
    var i := 1;
    while |section| % 8 != 0
      invariant 1 <= i <= |p| + 1
      invariant |section| == |u| + i - 1
      invariant section == u + p[..i - 1]
      decreases |p| - i
    {
      section := section + [i];
      i := i + 1;
    }
    assert p[..i - 1] == p;
  }

  /** openSSHPrivateKey, up to the PEM armour; `check` is the random check value. */
  method OpenSshPrivateKey(pub: seq<Byte>, priv: seq<Byte>, comment: seq<Byte>, check: seq<Byte>) returns (b: seq<Byte>)
    ensures b == PrivateKeyBlob(check, pub, priv, comment)
  {
    var section := check + check;
    section := SshString(section, KEY_TYPE);
    section := SshString(section, pub);
    section := SshString(section, priv);
    section := SshString(section, comment);
    section := Pad(section);

    b := MAGIC;
    b := SshString(b, NONE_NAME);
    b := SshString(b, NONE_NAME);
    b := SshString(b, []);
    b := b + Uint32(1);
    b := SshString(b, PublicKeyBlob(pub));
    b := SshString(b, section);
  }

  // ---------------------------------------------------------------- the readers

  datatype Key = Key(check: seq<Byte>, pub: seq<Byte>, priv: seq<Byte>, comment: seq<Byte>)

  // What the readers expect, byte by byte.
  const WIRE_TYPE: seq<Byte> := [115, 115, 104, 45, 101, 100, 50, 53, 53, 49, 57]
  const WIRE_NONE: seq<Byte> := [110, 111, 110, 101]
  const WIRE_MAGIC: seq<Byte> := [111, 112, 101, 110, 115, 115, 104, 45, 107, 101, 121, 45, 118, 49, 0]

  lemma NamesOnTheWire()
    ensures KEY_TYPE == WIRE_TYPE && NONE_NAME == WIRE_NONE && MAGIC == WIRE_MAGIC
  {
  }

  function ReadPublicBlob(blob: seq<Byte>): Option<seq<Byte>> {
    var typeAndRest :- ReadString(blob);
    var pubAndRest :- ReadString(typeAndRest.1);
    if typeAndRest.0 == WIRE_TYPE && |pubAndRest.0| == 32 && pubAndRest.1 == [] then Some(pubAndRest.0) else None
  }

  /** The fields of the private section and what is left after the comment. */
  function ReadFields(b: seq<Byte>): Option<(seq<Byte>, seq<Byte>, seq<Byte>, seq<Byte>, seq<Byte>)> {
    var typeAndRest :- ReadString(b);
    var pubAndRest :- ReadString(typeAndRest.1);
    var privAndRest :- ReadString(pubAndRest.1);
    var commentAndRest :- ReadString(privAndRest.1);
    Some((typeAndRest.0, pubAndRest.0, privAndRest.0, commentAndRest.0, commentAndRest.1))
  }

  function ReadPrivateSection(b: seq<Byte>): Option<Key> {
    if |b| % 8 != 0 || |b| < 8 || b[..4] != b[4..8] then None
    else
      var fields :- ReadFields(b[8..]);
      var pad := fields.4;
      if fields.0 != WIRE_TYPE || |fields.1| != 32 || |fields.2| != 64 then None
      else if |pad| > 7 || exists i :: 0 <= i < |pad| && pad[i] != i + 1 then None
      else Some(Key(b[..4], fields.1, fields.2, fields.3))
  }

  /** Cipher and KDF "none", no KDF options, one key: its public half, and what follows. */
  function ReadAfterMagic(b: seq<Byte>): Option<(seq<Byte>, seq<Byte>)> {
    var cipher :- ReadString(b);
    var kdf :- ReadString(cipher.1);
    var options :- ReadString(kdf.1);
    if cipher.0 != WIRE_NONE || kdf.0 != WIRE_NONE || options.0 != [] then None
    else if |options.1| < 4 || FromUint32(options.1[..4]) != 1 then None
    else
      var publicBlob :- ReadString(options.1[4..]);
      var pub :- ReadPublicBlob(publicBlob.0);
      Some((pub, publicBlob.1))
  }

  /** An unencrypted OpenSSH private key holding one ed25519 key and nothing after it. */
  function ReadPrivateKey(b: seq<Byte>): Option<Key> {
    if |b| < 15 || b[..15] != WIRE_MAGIC then None
    else
      var pubAndRest :- ReadAfterMagic(b[15..]);
      var section :- ReadString(pubAndRest.1);
      var key :- ReadPrivateSection(section.0);
      if section.1 == [] && key.pub == pubAndRest.0 then Some(key) else None
  }

  // ---------------------------------------------------------------- round trips

  lemma PublicBlobRoundTrip(pub: seq<Byte>)
    requires |pub| == 32
    ensures ReadPublicBlob(PublicKeyBlob(pub)) == Some(pub) && |PublicKeyBlob(pub)| == 51
  {
    NamesOnTheWire();
    PublicBlobShape(pub);
    FieldRead(KEY_TYPE, Field(pub));
    FieldRead(pub, []);
    NoTail(Field(pub));
  }

  lemma PublicBlobShape(pub: seq<Byte>)
    ensures PublicKeyBlob(pub) == Field(KEY_TYPE) + Field(pub)
  {
    assert [] + Field(KEY_TYPE) == Field(KEY_TYPE);
  }

  lemma NoTail(b: seq<Byte>)
    ensures b + [] == b
  {
  }

  lemma FieldsRoundTrip(pub: seq<Byte>, priv: seq<Byte>, comment: seq<Byte>, rest: seq<Byte>)
    requires |pub| < WORD && |priv| < WORD && |comment| < WORD
    ensures ReadFields(Field(KEY_TYPE) + (Field(pub) + (Field(priv) + (Field(comment) + rest))))
         == Some((KEY_TYPE, pub, priv, comment, rest))
  {
    FieldRead(comment, rest);
    FieldRead(priv, Field(comment) + rest);
    FieldRead(pub, Field(priv) + (Field(comment) + rest));
    FieldRead(KEY_TYPE, Field(pub) + (Field(priv) + (Field(comment) + rest)));
  }

  lemma SectionShape(check: seq<Byte>, pub: seq<Byte>, priv: seq<Byte>, comment: seq<Byte>, pad: seq<Byte>)
    ensures Unpadded(check, pub, priv, comment) + pad
         == (check + check) + (Field(KEY_TYPE) + (Field(pub) + (Field(priv) + (Field(comment) + pad))))
  {
    var c, k, p, q, m := check + check, Field(KEY_TYPE), Field(pub), Field(priv), Field(comment);
    Nest(c, k, p, q, m);
    Nest(k, p, q, m, pad);
    Reassociate(c, k + (p + (q + m)), pad);
    assert (k + (p + (q + m))) + pad == k + (p + (q + (m + pad))) by { Nest(k, p, q, m, pad); Nest4(k, p, q, m); }
  }

  lemma Nest4(a: seq<Byte>, b: seq<Byte>, c: seq<Byte>, d: seq<Byte>)
    ensures a + b + c + d == a + (b + (c + d))
  {
  }

  lemma Reassociate(a: seq<Byte>, b: seq<Byte>, c: seq<Byte>)
    ensures (a + b) + c == a + (b + c)
  {
  }

  lemma PrivateSectionRoundTrip(check: seq<Byte>, pub: seq<Byte>, priv: seq<Byte>, comment: seq<Byte>)
    requires |check| == 4 && |pub| == 32 && |priv| == 64 && |comment| < WORD
    ensures ReadPrivateSection(PrivateSection(check, pub, priv, comment)) == Some(Key(check, pub, priv, comment))
  {
    var pad := Padding(|Unpadded(check, pub, priv, comment)|);
    var rest := Field(KEY_TYPE) + (Field(pub) + (Field(priv) + (Field(comment) + pad)));
    SectionShape(check, pub, priv, comment, pad);
    assert (8 + |rest|) % 8 == 0 by {
      assert |Unpadded(check, pub, priv, comment) + pad| == |(check + check) + rest|;
    }
    FieldsRoundTrip(pub, priv, comment, pad);
    ReadChecked(check, rest, pub, priv, comment, pad);
  }

  lemma CheckedPrefix(check: seq<Byte>, rest: seq<Byte>)
    requires |check| == 4
    ensures var s := (check + check) + rest; |s| >= 8 && s[..4] == check && s[4..8] == check && s[8..] == rest
  {
  }

  lemma ReadChecked(check: seq<Byte>, rest: seq<Byte>, pub: seq<Byte>, priv: seq<Byte>, comment: seq<Byte>, pad: seq<Byte>)
    requires |check| == 4 && |pub| == 32 && |priv| == 64
    requires ReadFields(rest) == Some((KEY_TYPE, pub, priv, comment, pad))
    requires (8 + |rest|) % 8 == 0 && |pad| <= 7 && forall i :: 0 <= i < |pad| ==> pad[i] == i + 1
    ensures ReadPrivateSection((check + check) + rest) == Some(Key(check, pub, priv, comment))
  {
    NamesOnTheWire();
    CheckedPrefix(check, rest);
  }

  /** What follows the magic in an encoded key. */
  function AfterMagic(pub: seq<Byte>, tail: seq<Byte>): seq<Byte> {
    Field(NONE_NAME) + (Field(NONE_NAME) + (Field([]) + (Uint32(1) + (Field(PublicKeyBlob(pub)) + tail))))
  }

  lemma HeaderShape(pub: seq<Byte>, tail: seq<Byte>)
    ensures Header(pub) + tail == MAGIC + AfterMagic(pub, tail)
  {
    var m, n, o, u, f := MAGIC, Field(NONE_NAME), Field([]), Uint32(1), Field(PublicKeyBlob(pub));
    assert Header(pub) == m + n + n + o + u + f;
    Nest(m, n, n, o, u);
    Reassociate(m + (n + (n + (o + u))), f, tail);
    Reassociate(m, n + (n + (o + u)), f + tail);
    assert (n + (n + (o + u))) + (f + tail) == n + (n + (o + (u + (f + tail)))) by {
      Nest4(n, n, o, u);
      Nest(n, n, o, u, f + tail);
    }
  }

  /** The header reads back as far as the private section. */
  lemma HeaderReads(pub: seq<Byte>, tail: seq<Byte>)
    requires |pub| == 32
    ensures ReadAfterMagic(AfterMagic(pub, tail)) == Some((pub, tail))
  {
    var blob := PublicKeyBlob(pub);
    NamesOnTheWire();
    PublicBlobRoundTrip(pub);
    var r3 := Field(blob) + tail;
    var r2 := Uint32(1) + r3;
    var r1 := Field([]) + r2;
    FieldRead(blob, tail);
    FieldRead([], r2);
    FieldRead(NONE_NAME, r1);
    FieldRead(NONE_NAME, Field(NONE_NAME) + r1);
    Uint32RoundTrip(1);
    Split(Uint32(1), r3);
  }

  lemma SplitMagic(b: seq<Byte>)
    ensures (MAGIC + b)[..15] == WIRE_MAGIC && (MAGIC + b)[15..] == b
  {
    NamesOnTheWire();
    Split(MAGIC, b);
  }

  /** Reading the encoded key gives back exactly the check value, both halves of the key and
      the comment, if and only if the private section's length fits in its 32-bit prefix. */
  lemma PrivateKeyRoundTrip(check: seq<Byte>, pub: seq<Byte>, priv: seq<Byte>, comment: seq<Byte>)
    requires |check| == 4 && |pub| == 32 && |priv| == 64
    ensures ReadPrivateKey(PrivateKeyBlob(check, pub, priv, comment)) == Some(Key(check, pub, priv, comment))
       <==> |PrivateSection(check, pub, priv, comment)| < WORD
  {
    var section := PrivateSection(check, pub, priv, comment);
    var tail := Field(section);
    HeaderShape(pub, tail);
    SplitMagic(AfterMagic(pub, tail));
    HeaderReads(pub, tail);
    FieldRead(section, []);
    assert tail + [] == tail;
    if |section| < WORD {
      assert |comment| < |section|;
      PrivateSectionRoundTrip(check, pub, priv, comment);
    }
  }

  /** The private section is a multiple of 8 bytes, padded with 1, 2, ..., k for k at most 7. */
  lemma PrivateSectionPadded(check: seq<Byte>, pub: seq<Byte>, priv: seq<Byte>, comment: seq<Byte>)
    ensures var s, u := PrivateSection(check, pub, priv, comment), Unpadded(check, pub, priv, comment);
            && |s| % 8 == 0 && u <= s && |s| - |u| <= 7
            && forall i :: |u| <= i < |s| ==> s[i] == i - |u| + 1
  {
  }

  // ---------------------------------------------------------------- authorized_keys

  function AuthorizedKey(pub: seq<Byte>, comment: string): string {
    "ssh-ed25519 " + Encode(PublicKeyBlob(pub)) + " " + comment + "\n"
  }

  /** unicode.IsSpace. */
  predicate IsSpace(c: char) {
    var n := c as int;
    9 <= n <= 13 || n == 32 || n == 0x85 || n == 0xA0 || n == 0x1680 || 0x2000 <= n <= 0x200A
    || n == 0x2028 || n == 0x2029 || n == 0x202F || n == 0x205F || n == 0x3000
  }

  predicate IsWord(s: string) {
    s != "" && forall i :: 0 <= i < |s| ==> !IsSpace(s[i])
  }

  /** The length of the whitespace-free prefix. */
  function WordLength(s: string): (n: nat)
    ensures n <= |s| && (n < |s| ==> IsSpace(s[n]))
    ensures forall i :: 0 <= i < n ==> !IsSpace(s[i])
  {
    if s == "" || IsSpace(s[0]) then 0 else 1 + WordLength(s[1..])
  }

  /** strings.Fields. */
  function Fields(s: string): (fields: seq<string>)
    ensures forall f :: f in fields ==> IsWord(f)
    decreases |s|
  {
    if s == "" then []
    else if IsSpace(s[0]) then Fields(s[1..])
    else
      var n := WordLength(s);
      [s[..n]] + Fields(s[n..])
  }

  lemma FieldFirst(word: string, space: char, rest: string)
    requires IsWord(word) && IsSpace(space)
    ensures Fields(word + [space] + rest) == [word] + Fields(rest)
  {
    var s := word + [space] + rest;
    var n := WordLength(s);
    assert s[|word|] == space && forall i :: 0 <= i < |word| ==> s[i] == word[i];
    assert n == |word|;
    assert s[..n] == word && s[n..] == [space] + rest;
    assert ([space] + rest)[1..] == rest;
  }

  function ParseAuthorizedKey(line: string): Option<(seq<Byte>, string)> {
    var fields := Fields(line);
    if |fields| != 3 || fields[0] != "ssh-ed25519" then None
    else
      var blob :- Decode(fields[1]);
      var pub :- ReadPublicBlob(blob);
      Some((pub, fields[2]))
  }

  /** The authorized_keys line parses back to the same key and comment if and only if the
      comment is non-empty and free of whitespace. */
  lemma AuthorizedKeyRoundTrip(pub: seq<Byte>, comment: string)
    requires |pub| == 32
    ensures ParseAuthorizedKey(AuthorizedKey(pub, comment)) == Some((pub, comment)) <==> IsWord(comment)
  {
    var blob := PublicKeyBlob(pub);
    var text := Encode(blob);
    PublicBlobRoundTrip(pub);
    RoundTrip(blob);
    forall i | 0 <= i < |text|
      ensures !IsSpace(text[i])
    {
      EncodePrintable(blob, i);
    }
    LineFields(text, comment);
  }

  lemma LineFields(text: string, comment: string)
    requires IsWord(text)
    ensures var fields := Fields("ssh-ed25519 " + text + " " + comment + "\n");
            && |fields| >= 2 && fields[0] == "ssh-ed25519" && fields[1] == text
            && (|fields| == 3 && fields[2] == comment <==> IsWord(comment))
  {
    var line := "ssh-ed25519 " + text + " " + comment + "\n";
    var tail := text + " " + (comment + "\n");
    assert line == "ssh-ed25519" + " " + tail;
    FieldFirst("ssh-ed25519", ' ', tail);
    FieldFirst(text, ' ', comment + "\n");
    if IsWord(comment) {
      FieldFirst(comment, '\n', "");
      assert comment + "\n" + "" == comment + "\n";
    } else if |Fields(line)| == 3 {
      assert Fields(line)[2] in Fields(line);
    }
  }
}
