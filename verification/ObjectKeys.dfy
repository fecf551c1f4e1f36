/**
 Private object keys: the printer of `store_upload_intent` (src/persistence.rs) against the
 validator of the storage client (src/external.rs).
 */
module ObjectKeys {
  import opened Hex
  import opened Text

  datatype UuidBytes = Uuid(bytes: seq<byte>)

  type Uuid = u: UuidBytes | |u.bytes| == 16 witness Uuid([0, 0, 0, 0, 0, 0, 0, 0, 0, 0, 0, 0, 0, 0, 0, 0])

  datatype UploadKind = Resume | PhotoId

  function UploadKindText(kind: UploadKind): string {
    match kind
    case Resume => "resume"
    case PhotoId => "photo_id"
  }

  /** The hyphenated form of a UUID: groups of 4, 2, 2, 2 and 6 bytes. */
  function UuidText(id: Uuid): string {
    Encode(id.bytes[..4]) + "-" + Encode(id.bytes[4..6]) + "-" + Encode(id.bytes[6..8]) + "-"
    + Encode(id.bytes[8..10]) + "-" + Encode(id.bytes[10..])
  }

  /** `format!("intake/{}/{}/{}", kind, id, &sha256[..16])`. */
  function ObjectKey(kind: UploadKind, id: Uuid, sha256: string): string
    requires |sha256| >= 16
  {
    "intake" + ['/'] + (UploadKindText(kind) + ['/'] + (UuidText(id) + ['/'] + sha256[..16]))
  }

  predicate IsKeyCharacter(c: char) {
    IsAsciiAlphanumeric(c) || c == '-' || c == '_'
  }

  predicate IsKeySegment(segment: string) {
    segment != "" && segment != "." && segment != ".." && forall i :: 0 <= i < |segment| ==> IsKeyCharacter(segment[i])
  }

  /** `validate_object_key`. */
  predicate ValidObjectKey(value: string) {
    && value != ""
    && |value| <= 1024
    && value[0] != '/'
    && var segments := Split(value, '/');
       forall i :: 0 <= i < |segments| ==> IsKeySegment(segments[i])
  }

  function KeyParts(kind: UploadKind, id: Uuid, sha256: string): seq<string>
    requires |sha256| >= 16
  {
    ["intake", UploadKindText(kind), UuidText(id), sha256[..16]]
  }

  lemma LowerHexIsKeyText(text: string)
    requires text != "" && forall i :: 0 <= i < |text| ==> IsLowerHexDigit(text[i])
    ensures IsKeySegment(text)
  {
    assert IsLowerHexDigit(text[0]) && text[0] != '.';
  }

  lemma UuidTextShape(id: Uuid)
    ensures |UuidText(id)| == 36
    ensures forall i :: 0 <= i < 36 ==> UuidText(id)[i] == '-' || IsLowerHexDigit(UuidText(id)[i])
  {
    EncodeIsLowerHex(id.bytes[..4]);
    EncodeIsLowerHex(id.bytes[4..6]);
    EncodeIsLowerHex(id.bytes[6..8]);
    EncodeIsLowerHex(id.bytes[8..10]);
    EncodeIsLowerHex(id.bytes[10..]);
  }

  lemma UuidTextParts(id: Uuid)
    ensures |UuidText(id)| == 36
    ensures UuidText(id)[..8] == Encode(id.bytes[..4])
    ensures UuidText(id)[9..13] == Encode(id.bytes[4..6])
    ensures UuidText(id)[14..18] == Encode(id.bytes[6..8])
    ensures UuidText(id)[19..23] == Encode(id.bytes[8..10])
    ensures UuidText(id)[24..] == Encode(id.bytes[10..])
    ensures UuidText(id)[8] == UuidText(id)[13] == UuidText(id)[18] == UuidText(id)[23] == '-'
  {
    hide Encode;
  }

  /** Distinct identifiers have distinct texts. */
  lemma UuidTextInjective(left: Uuid, right: Uuid)
    requires UuidText(left) == UuidText(right)
    ensures left == right
  {
    hide Encode, UuidText;
    UuidTextParts(left);
    UuidTextParts(right);
    EncodeInjective(left.bytes[..4], right.bytes[..4]);
    EncodeInjective(left.bytes[4..6], right.bytes[4..6]);
    EncodeInjective(left.bytes[6..8], right.bytes[6..8]);
    EncodeInjective(left.bytes[8..10], right.bytes[8..10]);
    EncodeInjective(left.bytes[10..], right.bytes[10..]);
    BytesRegroup(left.bytes);
    BytesRegroup(right.bytes);
  }

  lemma BytesRegroup(bytes: seq<byte>)
    requires |bytes| == 16
    ensures bytes == bytes[..4] + bytes[4..6] + bytes[6..8] + bytes[8..10] + bytes[10..]
  {
  }

  lemma PartsAreSegments(kind: UploadKind, id: Uuid, sha256: string)
    requires IsDigestText(sha256)
    ensures forall i :: 0 <= i < 4 ==> IsKeySegment(KeyParts(kind, id, sha256)[i])
    ensures forall i :: 0 <= i < 4 ==> '/' !in KeyParts(kind, id, sha256)[i]
  {
    UuidTextShape(id);
    LowerHexIsKeyText(sha256[..16]);
  }

  /** Splitting a printed key gives its four fields back. */
  lemma PrintedKeySplits(kind: UploadKind, id: Uuid, sha256: string)
    requires IsDigestText(sha256)
    ensures Split(ObjectKey(kind, id, sha256), '/') == KeyParts(kind, id, sha256)
         == ["intake", if kind == Resume then "resume" else "photo_id", UuidText(id), sha256[..16]]
  {
    var parts := KeyParts(kind, id, sha256);
    PartsAreSegments(kind, id, sha256);
    assert parts[1..][1..][1..] == [sha256[..16]];
    assert Join(parts[1..][1..][1..], '/') == sha256[..16];
    assert Join(parts[1..][1..], '/') == UuidText(id) + ['/'] + sha256[..16];
    assert Join(parts[1..], '/') == UploadKindText(kind) + ['/'] + (UuidText(id) + ['/'] + sha256[..16]);
    assert Join(parts, '/') == ObjectKey(kind, id, sha256);
    SplitOfJoin(parts, '/');
  }

  /** Every printed key passes the validator of the storage client. */
  lemma PrintedKeyIsValid(kind: UploadKind, id: Uuid, sha256: string)
    requires IsDigestText(sha256)
    ensures ValidObjectKey(ObjectKey(kind, id, sha256))
  {
    PrintedKeySplits(kind, id, sha256);
    PartsAreSegments(kind, id, sha256);
    UuidTextShape(id);
    assert ObjectKey(kind, id, sha256)[0] == 'i';
  }

  /** A key determines the kind, the upload and the first 16 digits of the digest. */
  lemma PrintedKeyInjective(kind: UploadKind, id: Uuid, sha256: string, kind': UploadKind, id': Uuid, sha256': string)
    requires IsDigestText(sha256) && IsDigestText(sha256')
    requires ObjectKey(kind, id, sha256) == ObjectKey(kind', id', sha256')
    ensures kind == kind' && id == id' && sha256[..16] == sha256'[..16]
  {
    PrintedKeySplits(kind, id, sha256);
    PrintedKeySplits(kind', id', sha256');
    var parts, parts' := KeyParts(kind, id, sha256), KeyParts(kind', id', sha256');
    assert parts == parts';
    assert parts[1] == parts'[1] && parts[2] == parts'[2] && parts[3] == parts'[3];
    assert kind == kind' by {
      assert UploadKindText(kind)[0] == UploadKindText(kind')[0];
    }
    UuidTextInjective(id, id');
  }

  ghost predicate JoinsSegments(value: string, parts: seq<string>) {
    && |parts| >= 1
    && Join(parts, '/') == value
    && forall i :: 0 <= i < |parts| ==> IsKeySegment(parts[i])
  }

  /** The accepted keys are the bounded '/'-joins of key segments: no dot, so no parent directory. */
  lemma ValidKeysAreJoinedSegments(value: string)
    ensures ValidObjectKey(value) <==> |value| <= 1024 && exists parts :: JoinsSegments(value, parts)
  {
    if ValidObjectKey(value) {
      JoinOfSplit(value, '/');
      assert JoinsSegments(value, Split(value, '/'));
    }
    forall parts | |value| <= 1024 && JoinsSegments(value, parts) ensures ValidObjectKey(value) {
      forall i | 0 <= i < |parts| ensures '/' !in parts[i] {
        assert IsKeySegment(parts[i]);
      }
      SplitOfJoin(parts, '/');
      assert IsKeySegment(parts[0]);
      assert value[0] == parts[0][0];
    }
  }

  /** A name of an object: letters, digits, hyphens and underscores, parted by single slashes. */
  predicate IsCleanPath(value: string) {
    && value != "" && value[0] != '/' && value[|value| - 1] != '/'
    && (forall i :: 0 <= i < |value| - 1 && value[i] == '/' ==> value[i + 1] != '/')
    && (forall i :: 0 <= i < |value| ==>
          || 'a' <= value[i] <= 'z' || 'A' <= value[i] <= 'Z' || '0' <= value[i] <= '9'
          || value[i] == '-' || value[i] == '_' || value[i] == '/')
  }

  ghost predicate SegmentsAreKeys(parts: seq<string>) {
    forall i :: 0 <= i < |parts| ==> IsKeySegment(parts[i])
  }

  lemma KeyedSegmentsPrepend(first: string, rest: seq<string>)
    ensures SegmentsAreKeys([first] + rest) <==> IsKeySegment(first) && SegmentsAreKeys(rest)
  {
    var parts := [first] + rest;
    if SegmentsAreKeys(parts) {
      assert IsKeySegment(parts[0]);
      forall i | 0 <= i < |rest| ensures IsKeySegment(rest[i]) {
        assert rest[i] == parts[i + 1];
      }
    }
  }

  lemma SegmentGrows(c: char, segment: string)
    requires segment != ""
    ensures IsKeySegment([c] + segment)
       <==> IsKeyCharacter(c) && forall i :: 0 <= i < |segment| ==> IsKeyCharacter(segment[i])
  {
    var longer := [c] + segment;
    if IsKeySegment(longer) {
      assert longer[0] == c;
      forall i | 0 <= i < |segment| ensures IsKeyCharacter(segment[i]) {
        assert segment[i] == longer[i + 1];
      }
    } else if IsKeyCharacter(c) && forall i :: 0 <= i < |segment| ==> IsKeyCharacter(segment[i]) {
      assert longer[0] == c && longer[0] != '.';
    }
  }

  lemma {:induction false} CleanPathsSplitIntoKeys(value: string)
    requires value != ""
    ensures SegmentsAreKeys(Split(value, '/')) <==> IsCleanPath(value)
    decreases |value|
  {
    var rest := Split(value[1..], '/');
    if value[0] == '/' {
      assert Split(value, '/')[0] == "";
    } else if |value| == 1 {
      assert value[1..] == "" && rest == [""];
      assert [value[0]] + rest[0] == [value[0]];
      assert Split(value, '/') == [[value[0]]];
      NonDotted([value[0]]);
      KeyedSegmentsPrepend([value[0]], []);
      assert [[value[0]]] == [[value[0]]] + [];
    } else if value[1] == '/' {
      var tail := value[2..];
      assert value[1..][0] == '/' && value[1..][1..] == tail;
      assert rest == [""] + Split(tail, '/');
      assert [value[0]] + rest[0] == [value[0]] && rest[1..] == Split(tail, '/');
      assert Split(value, '/') == [[value[0]]] + Split(tail, '/');
      NonDotted([value[0]]);
      KeyedSegmentsPrepend([value[0]], Split(tail, '/'));
      if tail != "" {
        CleanPathsSplitIntoKeys(tail);
        TailIsClean(value, 2);
      } else {
        assert value[|value| - 1] == '/';
        assert !IsKeySegment(Split(tail, '/')[0]);
      }
    } else {
      var tail := value[1..];
      assert rest[0] != "";
      CleanPathsSplitIntoKeys(tail);
      TailIsClean(value, 1);
      SegmentGrows(value[0], rest[0]);
      assert rest == [rest[0]] + rest[1..];
      KeyedSegmentsPrepend(rest[0], rest[1..]);
      KeyedSegmentsPrepend([value[0]] + rest[0], rest[1..]);
      NonDotted(rest[0]);
    }
  }

  lemma NonDotted(segment: string)
    requires segment != ""
    ensures IsKeySegment(segment) <==> forall i :: 0 <= i < |segment| ==> IsKeyCharacter(segment[i])
  {
    if forall i :: 0 <= i < |segment| ==> IsKeyCharacter(segment[i]) {
      assert IsKeyCharacter(segment[0]);
    }
  }

  lemma TailIsClean(value: string, n: nat)
    requires n < |value| && (n == 1 || n == 2) && value[0] != '/'
    requires n == 1 ==> value[1] != '/'
    requires n == 2 ==> value[1] == '/'
    ensures IsCleanPath(value) <==> IsKeyCharacter(value[0]) && IsCleanPath(value[n..])
  {
    var tail := value[n..];
    if IsCleanPath(value) {
      forall i | 0 <= i < |tail| ensures tail[i] == value[i + n] {
      }
      assert tail[|tail| - 1] == value[|value| - 1];
    }
  }

  /** The validator accepts exactly the clean paths of at most 1024 characters. */
  lemma ValidKeysExactly(value: string)
    ensures ValidObjectKey(value) <==> |value| <= 1024 && IsCleanPath(value)
  {
    if value != "" {
      CleanPathsSplitIntoKeys(value);
    }
  }
}
