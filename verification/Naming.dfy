/** Names of the Oxide resources that belong to one Kubernetes object. */
module Naming {
  import opened Text

  type Word32 = n: nat | n < 0x1_0000_0000

  /** The 32-bit FNV-1a hash is left open: everything here holds for every hash function. */
  type Hasher = string -> Word32

  const MAX_RESOURCE_LENGTH: nat := 63
  const INSTANCE_PREFIX: Ascii := "capi"
  const BOOT_DISK_PREFIX: Ascii := "capi-boot"
  const DATA_DISK_PREFIX: Ascii := "capi-data-"

  /** Slice indices are Go ints, so an index is below 2^63. */
  type DiskIndex = i: nat | i < 0x8000_0000_0000_0000

  function HashText(hasher: Hasher, name: string): string {
    Digits(hasher(name), 16)
  }

  /** The slice expression panics unless this holds. */
  predicate SliceInRange(hasher: Hasher, name: string, maxLength: nat) {
    |name| > maxLength ==> |HashText(hasher, name)| < maxLength
  }

  /** What is left of an over-long name in front of the hash. */
  function Kept(hasher: Hasher, name: string, maxLength: nat): string
    requires |name| > maxLength && SliceInRange(hasher, name, maxLength)
  {
    name[..maxLength - |HashText(hasher, name)| - 1]
  }

  function HashTruncated(hasher: Hasher, name: string, maxLength: nat): string
    requires SliceInRange(hasher, name, maxLength)
  {
    TrimDash(Lower(if |name| > maxLength then Kept(hasher, name, maxLength) + "-" + HashText(hasher, name) else name))
  }

  method HashTruncateName(hasher: Hasher, fullName: Ascii, maxLength: nat) returns (r: string)
    requires SliceInRange(hasher, fullName, maxLength)
    ensures r == HashTruncated(hasher, fullName, maxLength)
  {
    var name: string := fullName;
    if |name| > maxLength {
      var hash := Digits(hasher(name), 16);
      name := name[..maxLength - |hash| - 1] + "-" + hash;
    }
    name := Lower(name);
    if EndsWithDash(name) {
      name := name[..|name| - 1];
    }
    return name;
  }

  /** The hash prints as one to eight hex digits, so nine characters are always enough room,
      and eight are not when it needs all eight digits. */
  lemma NineIsEnough(hasher: Hasher, name: string, maxLength: nat)
    ensures 1 <= |HashText(hasher, name)| <= 8
    ensures maxLength >= 9 ==> SliceInRange(hasher, name, maxLength)
    ensures |name| > 8 && hasher(name) == 0xffff_ffff ==> !SliceInRange(hasher, name, 8)
  {
    assert Power(16, 8) == 0x1_0000_0000 by {
      assert Power(16, 4) == 0x1_0000;
      assert Power(16, 6) == 0x100_0000;
    }
    DigitsLength(hasher(name), 16, 8);
    if hasher(name) == 0xffff_ffff {
      FullWidth();
    }
  }

  lemma FullWidth()
    ensures |Digits(0xffff_ffff, 16)| == 8
  {
    assert |Digits(0xf, 16)| == 1;
    assert |Digits(0xff, 16)| == 2;
    assert |Digits(0xfff, 16)| == 3;
    assert |Digits(0xffff, 16)| == 4;
    assert |Digits(0xf_ffff, 16)| == 5;
    assert |Digits(0xff_ffff, 16)| == 6;
    assert |Digits(0xfff_ffff, 16)| == 7;
  }

  function FullName(prefix: string, namespace: string, name: string): string {
    prefix + "-" + namespace + "-" + name
  }

  function ResourceName(hasher: Hasher, prefix: string, namespace: string, name: string): string {
    NineIsEnough(hasher, FullName(prefix, namespace, name), MAX_RESOURCE_LENGTH);
    HashTruncated(hasher, FullName(prefix, namespace, name), MAX_RESOURCE_LENGTH)
  }

  function InstanceName(hasher: Hasher, namespace: string, name: string): string {
    ResourceName(hasher, INSTANCE_PREFIX, namespace, name)
  }

  function BootDiskName(hasher: Hasher, namespace: string, name: string): string {
    ResourceName(hasher, BOOT_DISK_PREFIX, namespace, name)
  }

  function DataDiskName(hasher: Hasher, namespace: string, name: string, index: DiskIndex): string {
    ResourceName(hasher, DATA_DISK_PREFIX + Digits(index, 10), namespace, name)
  }

  // ---- Length and shape -------------------------------------------------------------------

  /** A truncated name is exactly `maxLength` long, and no name is longer. */
  lemma LengthBound(hasher: Hasher, name: string, maxLength: nat)
    requires SliceInRange(hasher, name, maxLength)
    ensures |HashTruncated(hasher, name, maxLength)| <= maxLength
    ensures |name| > maxLength ==>
              HashTruncated(hasher, name, maxLength) ==
              Lower(Kept(hasher, name, maxLength)) + "-" + HashText(hasher, name)
    ensures |name| > maxLength ==> |HashTruncated(hasher, name, maxLength)| == maxLength
  {
    if |name| > maxLength {
      DigitsCharacters(hasher(name), 16);
      var kept, hash := Kept(hasher, name, maxLength), HashText(hasher, name);
      assert Lower(kept + "-" + hash) == Lower(kept) + "-" + hash;
    }
  }

  /** Lower-case letters, digits and dashes, starting with a letter and ending with a letter or
      digit, 1 to 63 long: a host name label (sections 2.3.1 and 2.3.4 of RFC 1035). */
  predicate IsLabel(s: string) {
    && 1 <= |s| <= 63
    && 'a' <= s[0] <= 'z'
    && IsAlphanumeric(s[|s| - 1])
    && OverLabelAlphabet(s)
  }

  predicate OverLabelAlphabet(s: string) {
    forall i :: 0 <= i < |s| ==> IsAlphanumeric(s[i]) || s[i] == '-'
  }

  /** Lower-case letters, digits, dashes and dots. */
  predicate OverNameAlphabet(s: string) {
    forall i :: 0 <= i < |s| ==> IsAlphanumeric(s[i]) || s[i] == '-' || s[i] == '.'
  }

  /** What the lemmas about names need of an object name. */
  predicate EndsWell(s: string) {
    s != "" && OverNameAlphabet(s) && IsAlphanumeric(s[|s| - 1])
  }

  /** Object names as Kubernetes admits them: labels joined by dots, each of which starts and
      ends with a letter or digit (section 2.1 of RFC 1123). */
  predicate IsObjectName(s: string) {
    && EndsWell(s) && IsAlphanumeric(s[0])
    && forall i :: 0 < i < |s| - 1 && s[i] == '.' ==> IsAlphanumeric(s[i - 1]) && IsAlphanumeric(s[i + 1])
  }

  predicate IsHex(s: string) {
    s != "" && forall i :: 0 <= i < |s| ==> IsHexDigit(s[i])
  }

  lemma HashIsHex(hasher: Hasher, name: string)
    ensures IsHex(HashText(hasher, name))
  {
    DigitsCharacters(hasher(name), 16);
  }

  predicate IsLong(prefix: string, namespace: string, name: string) {
    |FullName(prefix, namespace, name)| > MAX_RESOURCE_LENGTH
  }

  /** The name of a long object is `Kept-HashText` of its full name. */
  function LongName(hasher: Hasher, full: string): string
    requires |full| > MAX_RESOURCE_LENGTH
  {
    NineIsEnough(hasher, full, MAX_RESOURCE_LENGTH);
    Kept(hasher, full, MAX_RESOURCE_LENGTH) + "-" + HashText(hasher, full)
  }

  lemma LowerIsIdentity(s: string)
    requires OverNameAlphabet(s)
    ensures Lower(s) == s
  {
  }

  lemma FullNameShape(prefix: string, namespace: string, name: string)
    requires prefix != "" && OverNameAlphabet(prefix) && OverNameAlphabet(namespace) && EndsWell(name)
    ensures var full := FullName(prefix, namespace, name);
            OverNameAlphabet(full) && full[0] == prefix[0] && full[|full| - 1] == name[|name| - 1]
  {
  }

  /** The name an object gets: its full name, or `Kept-HashText` of it when that is too long. */
  lemma NameOfObject(hasher: Hasher, prefix: string, ns: string, n: string)
    requires prefix != "" && OverNameAlphabet(prefix) && OverNameAlphabet(ns) && EndsWell(n)
    ensures var full := FullName(prefix, ns, n);
            ResourceName(hasher, prefix, ns, n) == if IsLong(prefix, ns, n) then LongName(hasher, full) else full
  {
    var full := FullName(prefix, ns, n);
    NineIsEnough(hasher, full, MAX_RESOURCE_LENGTH);
    FullNameShape(prefix, ns, n);
    if IsLong(prefix, ns, n) {
      LengthBound(hasher, full, MAX_RESOURCE_LENGTH);
      LowerIsIdentity(Kept(hasher, full, MAX_RESOURCE_LENGTH));
    } else {
      ShortNameIsKept(hasher, full, MAX_RESOURCE_LENGTH);
    }
  }

  lemma ShortNameIsKept(hasher: Hasher, full: string, maxLength: nat)
    requires EndsWell(full) && |full| <= maxLength
    ensures HashTruncated(hasher, full, maxLength) == full
  {
    LowerIsIdentity(full);
  }

  /** The characters of an object's full name that its resource name shows. */
  function Visible(hasher: Hasher, full: string): string {
    NineIsEnough(hasher, full, MAX_RESOURCE_LENGTH);
    if |full| > MAX_RESOURCE_LENGTH then Kept(hasher, full, MAX_RESOURCE_LENGTH) else full
  }

  /** Kubernetes admits dots in object names and a host name label does not: the resource name
      is a label exactly when no dot stays in front of the cut. The instance name doubles as
      the host name, so this is when it is one. */
  lemma ResourceNameIsLabelIff(hasher: Hasher, prefix: string, ns: string, n: string)
    requires prefix != "" && 'a' <= prefix[0] <= 'z'
    requires OverNameAlphabet(prefix) && OverNameAlphabet(ns) && EndsWell(n)
    ensures IsLabel(ResourceName(hasher, prefix, ns, n)) <==> '.' !in Visible(hasher, FullName(prefix, ns, n))
  {
    var full := FullName(prefix, ns, n);
    NameOfObject(hasher, prefix, ns, n);
    FullNameShape(prefix, ns, n);
    if IsLong(prefix, ns, n) {
      NineIsEnough(hasher, full, MAX_RESOURCE_LENGTH);
      HashIsHex(hasher, full);
      LongNameShape(Visible(hasher, full), HashText(hasher, full));
    } else {
      ShortNameShape(full);
    }
  }

  lemma ShortNameShape(full: string)
    requires full != "" && |full| <= 63 && 'a' <= full[0] <= 'z' && OverNameAlphabet(full)
    requires IsAlphanumeric(full[|full| - 1])
    ensures IsLabel(full) <==> '.' !in full
  {
  }

  /** Without dots in prefix, namespace and name every resource name is a label. */
  lemma ResourceNameIsLabel(hasher: Hasher, prefix: string, ns: string, n: string)
    requires prefix != "" && 'a' <= prefix[0] <= 'z'
    requires OverLabelAlphabet(prefix) && OverLabelAlphabet(ns) && EndsWell(n) && '.' !in n
    ensures IsLabel(ResourceName(hasher, prefix, ns, n))
  {
    assert '.' !in FullName(prefix, ns, n);
    ResourceNameIsLabelIff(hasher, prefix, ns, n);
  }

  /** The instance of the machine "m.x" in namespace "d" has no label for a name. */
  lemma DottedNameIsNoLabel(hasher: Hasher)
    ensures IsObjectName("m.x") && !IsLabel(InstanceName(hasher, "d", "m.x"))
  {
    var full := FullName(INSTANCE_PREFIX, "d", "m.x");
    assert IsAlphanumeric("m.x"[0]) && IsAlphanumeric("m.x"[2]);
    assert full[8] == '.';
    ResourceNameIsLabelIff(hasher, INSTANCE_PREFIX, "d", "m.x");
  }

  /** A dot beyond the cut goes with the rest: such a machine's name is a label. */
  lemma LateDotIsCutOff(hasher: Hasher, ns: string, n: string)
    requires OverLabelAlphabet(ns) && EndsWell(n)
    requires var full := FullName(INSTANCE_PREFIX, ns, n);
             |full| > MAX_RESOURCE_LENGTH && '.' !in full[..MAX_RESOURCE_LENGTH - 2]
    ensures IsLabel(InstanceName(hasher, ns, n))
  {
    var full := FullName(INSTANCE_PREFIX, ns, n);
    NineIsEnough(hasher, full, MAX_RESOURCE_LENGTH);
    var kept := Visible(hasher, full);
    assert kept == full[..MAX_RESOURCE_LENGTH - 2][..|kept|];
    ResourceNameIsLabelIff(hasher, INSTANCE_PREFIX, ns, n);
  }

  lemma LongNameShape(kept: string, hash: string)
    requires kept != "" && 'a' <= kept[0] <= 'z' && OverNameAlphabet(kept)
    requires IsHex(hash) && |kept| + 1 + |hash| <= 63
    ensures IsLabel(kept + "-" + hash) <==> '.' !in kept
  {
    var r := kept + "-" + hash;
    assert forall i :: 0 <= i < |kept| ==> r[i] == kept[i];
    assert forall i :: |kept| < i < |r| ==> r[i] == hash[i - |kept| - 1];
    if '.' in kept {
      var i :| 0 <= i < |kept| && kept[i] == '.';
      assert r[i] == '.';
    }
  }

  /** A name that is not too long is spelled out, and any other has full length. */
  predicate SpelledOut(name: string, full: string) {
    if |full| <= 63 then name == full else |name| == 63
  }

  lemma ResourceNameSpelledOut(hasher: Hasher, prefix: string, ns: string, n: string)
    requires prefix != "" && OverNameAlphabet(prefix) && OverNameAlphabet(ns) && EndsWell(n)
    ensures SpelledOut(ResourceName(hasher, prefix, ns, n), prefix + "-" + ns + "-" + n)
  {
    NineIsEnough(hasher, FullName(prefix, ns, n), MAX_RESOURCE_LENGTH);
    LengthBound(hasher, FullName(prefix, ns, n), MAX_RESOURCE_LENGTH);
    NameOfObject(hasher, prefix, ns, n);
  }

  lemma InstanceNameSpelledOut(hasher: Hasher, ns: string, n: string)
    requires OverNameAlphabet(ns) && EndsWell(n)
    ensures SpelledOut(InstanceName(hasher, ns, n), "capi" + "-" + ns + "-" + n)
  {
    ResourceNameSpelledOut(hasher, INSTANCE_PREFIX, ns, n);
  }

  lemma BootDiskNameSpelledOut(hasher: Hasher, ns: string, n: string)
    requires OverNameAlphabet(ns) && EndsWell(n)
    ensures SpelledOut(BootDiskName(hasher, ns, n), "capi-boot" + "-" + ns + "-" + n)
  {
    ResourceNameSpelledOut(hasher, BOOT_DISK_PREFIX, ns, n);
  }

  lemma DataDiskNameSpelledOut(hasher: Hasher, ns: string, n: string, i: DiskIndex)
    requires OverNameAlphabet(ns) && EndsWell(n)
    ensures SpelledOut(DataDiskName(hasher, ns, n, i), "capi-data-" + Digits(i, 10) + "-" + ns + "-" + n)
  {
    DigitsCharacters(i, 10);
    ResourceNameSpelledOut(hasher, DATA_DISK_PREFIX + Digits(i, 10), ns, n);
  }

  /** A name that ends with dashes loses one of them, and no other loses anything. */
  lemma OneDashIsTrimmed(hasher: Hasher, name: string, maxLength: nat)
    requires |name| <= maxLength
    ensures if name != "" && name[|name| - 1] == '-'
            then HashTruncated(hasher, name, maxLength) == Lower(name[..|name| - 1])
            else HashTruncated(hasher, name, maxLength) == Lower(name)
  {
  }

  // ---- Disks of machines never share a name -----------------------------------------------

  /** A character early enough in the full name is still there, lower-cased, in the result. */
  lemma EarlyCharacterSurvives(hasher: Hasher, prefix: string, namespace: string, name: string, p: nat)
    requires p < 54 && p + 1 < |FullName(prefix, namespace, name)|
    ensures p < |ResourceName(hasher, prefix, namespace, name)|
    ensures ResourceName(hasher, prefix, namespace, name)[p] == LowerChar(FullName(prefix, namespace, name)[p])
  {
    var full := FullName(prefix, namespace, name);
    NineIsEnough(hasher, full, MAX_RESOURCE_LENGTH);
    LengthBound(hasher, full, MAX_RESOURCE_LENGTH);
  }

  /** Two different decimals, each followed by a dash, differ at some position. */
  lemma DecimalsDiverge(i: nat, j: nat) returns (p: nat)
    requires i != j
    ensures p <= |Digits(i, 10)| && p <= |Digits(j, 10)|
    ensures (Digits(i, 10) + "-")[p] != (Digits(j, 10) + "-")[p]
  {
    var s, t := Digits(i, 10), Digits(j, 10);
    DigitsCharacters(i, 10);
    DigitsCharacters(j, 10);
    p := 0;
    while p < |s| && p < |t| && s[p] == t[p]
      invariant p <= |s| && p <= |t| && s[..p] == t[..p]
    {
      p := p + 1;
    }
    if p == |s| && p == |t| {
      assert s == s[..p] && t == t[..p];
      DigitsInjective(i, j, 10);
    }
  }

  lemma IndexWidth(i: DiskIndex)
    ensures 1 <= |Digits(i, 10)| <= 19
  {
    assert Power(10, 19) == 10_000_000_000_000_000_000 by {
      assert Power(10, 6) == 1_000_000;
      assert Power(10, 12) == 1_000_000_000_000;
      assert Power(10, 18) == 1_000_000_000_000_000_000;
    }
    DigitsLength(i, 10, 19);
  }

  /** Data disks with different indices have different names, whichever machines and
      namespaces they belong to and whether or not either name is truncated. */
  lemma DataDisksDiffer(hasher: Hasher, ns: string, n: string, i: DiskIndex,
                        ns': string, n': string, i': DiskIndex)
    requires i != i'
    ensures DataDiskName(hasher, ns, n, i) != DataDiskName(hasher, ns', n', i')
  {
    IndexWidth(i);
    IndexWidth(i');
    var p := DecimalsDiverge(i, i');
    DataDiskCharacter(hasher, ns, n, i, p);
    DataDiskCharacter(hasher, ns', n', i', p);
  }

  lemma DataDiskCharacter(hasher: Hasher, ns: string, n: string, i: DiskIndex, p: nat)
    requires p <= |Digits(i, 10)| <= 19
    ensures 10 + p < |DataDiskName(hasher, ns, n, i)|
    ensures DataDiskName(hasher, ns, n, i)[10 + p] == (Digits(i, 10) + "-")[p]
  {
    DigitsCharacters(i, 10);
    var prefix := DATA_DISK_PREFIX + Digits(i, 10);
    var index := Digits(i, 10) + "-";
    MiddleCharacter(DATA_DISK_PREFIX, index, ns + "-" + n, p);
    assert FullName(prefix, ns, n) == DATA_DISK_PREFIX + index + (ns + "-" + n);
    assert LowerChar(index[p]) == index[p];
    EarlyCharacterSurvives(hasher, prefix, ns, n, 10 + p);
  }

  lemma MiddleCharacter(a: string, b: string, c: string, p: nat)
    requires p < |b|
    ensures (a + b + c)[|a| + p] == b[p]
  {
  }

  /** A boot disk never has the name of a data disk, of this or any other machine. */
  lemma BootDiskDiffersFromDataDisk(hasher: Hasher, ns: string, n: string,
                                    ns': string, n': string, i: DiskIndex)
    ensures BootDiskName(hasher, ns, n) != DataDiskName(hasher, ns', n', i)
  {
    var prefix := DATA_DISK_PREFIX + Digits(i, 10);
    FixedPrefix(BOOT_DISK_PREFIX, "", ns, n, 5);
    FixedPrefix(DATA_DISK_PREFIX, Digits(i, 10), ns', n', 5);
    assert BOOT_DISK_PREFIX + "" == BOOT_DISK_PREFIX;
    EarlyCharacterSurvives(hasher, BOOT_DISK_PREFIX, ns, n, 5);
    EarlyCharacterSurvives(hasher, prefix, ns', n', 5);
  }

  lemma FixedPrefix(fixed: string, rest: string, ns: string, n: string, p: nat)
    requires p < |fixed|
    ensures p + 1 < |FullName(fixed + rest, ns, n)|
    ensures FullName(fixed + rest, ns, n)[p] == fixed[p]
  {
  }

  datatype DataDisk = DataDisk(size: nat, blockSize: nat)

  datatype DiskAttachment = DiskAttachment(name: string, size: nat, blockSize: nat)

  function AttachmentOf(hasher: Hasher, namespace: string, name: string, i: DiskIndex, disk: DataDisk): DiskAttachment {
    DiskAttachment(DataDiskName(hasher, namespace, name, i), disk.size, disk.blockSize)
  }

  /** The data disks of a create request: one per entry of the spec, in order, all with names of
      their own and none with that of the boot disk. */
  method DisksFromOxideMachine(hasher: Hasher, namespace: string, name: string, dataDisks: seq<DataDisk>)
    returns (disks: array<DiskAttachment>)
    requires |dataDisks| < 0x8000_0000_0000_0000
    ensures fresh(disks) && disks.Length == |dataDisks|
    ensures forall i: DiskIndex :: i < disks.Length ==> disks[i].name == DataDiskName(hasher, namespace, name, i)
    ensures forall i :: 0 <= i < disks.Length ==>
              disks[i].size == dataDisks[i].size && disks[i].blockSize == dataDisks[i].blockSize
    ensures forall i, j :: 0 <= i < j < disks.Length ==> disks[i].name != disks[j].name
    ensures forall i :: 0 <= i < disks.Length ==> disks[i].name != BootDiskName(hasher, namespace, name)
  {
    disks := new DiskAttachment[|dataDisks|](_ => DiskAttachment("", 0, 0));
    for idx := 0 to |dataDisks|
      invariant forall i: DiskIndex :: i < idx ==>
                  disks[i] == AttachmentOf(hasher, namespace, name, i, dataDisks[i])
    {
      disks[idx] := AttachmentOf(hasher, namespace, name, idx, dataDisks[idx]);
    }
    forall i: DiskIndex, j: DiskIndex | i < j < disks.Length
      ensures disks[i].name != disks[j].name
    {
      DataDisksDiffer(hasher, namespace, name, i, namespace, name, j);
    }
    forall i: DiskIndex | i < disks.Length
      ensures disks[i].name != BootDiskName(hasher, namespace, name)
    {
      BootDiskDiffersFromDataDisk(hasher, namespace, name, namespace, name, i);
    }
  }

  // ---- When two machines of one namespace share a name ------------------------------------

  /** Same hash text, and same characters in front of it up to case. */
  predicate SameHashAndCut(hasher: Hasher, a: string, b: string, maxLength: nat)
    requires |a| > maxLength && |b| > maxLength
    requires SliceInRange(hasher, a, maxLength) && SliceInRange(hasher, b, maxLength)
  {
    && HashText(hasher, a) == HashText(hasher, b)
    && Lower(Kept(hasher, a, maxLength)) == Lower(Kept(hasher, b, maxLength))
  }

  lemma LastDash(kept: string, hash: string)
    requires IsHex(hash)
    ensures var r := kept + "-" + hash;
            r[|kept|] == '-' && forall p :: |kept| < p < |r| ==> r[p] != '-'
  {
    var r := kept + "-" + hash;
    forall p | |kept| < p < |r|
      ensures r[p] != '-'
    {
      assert r[p] == hash[p - |kept| - 1];
    }
  }

  lemma DashSplits(k: string, h: string, k': string, h': string)
    requires IsHex(h) && IsHex(h')
    requires k + "-" + h == k' + "-" + h'
    ensures k == k' && h == h'
  {
    var r, r' := k + "-" + h, k' + "-" + h';
    LastDash(k, h);
    LastDash(k', h');
    assert |k| == |k'|;
    assert k == r[..|k|] && k' == r'[..|k'|];
    assert h == r[|k| + 1..] && h' == r'[|k'| + 1..];
  }

  /** Truncated names are read back uniquely, whatever the text and the limit: the hash is what
      follows the last dash, and what precedes it is the cut text up to case. */
  lemma TruncatedNamesDecode(hasher: Hasher, a: string, b: string, maxLength: nat)
    requires |a| > maxLength && |b| > maxLength
    requires SliceInRange(hasher, a, maxLength) && SliceInRange(hasher, b, maxLength)
    ensures HashTruncated(hasher, a, maxLength) == HashTruncated(hasher, b, maxLength) <==>
            SameHashAndCut(hasher, a, b, maxLength)
  {
    LengthBound(hasher, a, maxLength);
    LengthBound(hasher, b, maxLength);
    HashIsHex(hasher, a);
    HashIsHex(hasher, b);
    if HashTruncated(hasher, a, maxLength) == HashTruncated(hasher, b, maxLength) {
      DashSplits(Lower(Kept(hasher, a, maxLength)), HashText(hasher, a),
                 Lower(Kept(hasher, b, maxLength)), HashText(hasher, b));
    }
  }

  /** Exactly when two objects of one namespace get the same resource name. The hash matters
      only for names over 63 characters; short names never collide with each other. */
  lemma CollisionIff(hasher: Hasher, prefix: string, ns: string, n: string, n': string)
    requires prefix != "" && OverNameAlphabet(prefix) && OverNameAlphabet(ns)
    requires EndsWell(n) && EndsWell(n')
    ensures var full, full' := FullName(prefix, ns, n), FullName(prefix, ns, n');
            ResourceName(hasher, prefix, ns, n) == ResourceName(hasher, prefix, ns, n') <==>
            if IsLong(prefix, ns, n) then
              if IsLong(prefix, ns, n')
              then HashText(hasher, full) == HashText(hasher, full') && Visible(hasher, full) == Visible(hasher, full')
              else full' == LongName(hasher, full)
            else if IsLong(prefix, ns, n') then full == LongName(hasher, full')
            else n == n'
  {
    NameOfObject(hasher, prefix, ns, n);
    NameOfObject(hasher, prefix, ns, n');
    var full, full' := FullName(prefix, ns, n), FullName(prefix, ns, n');
    if IsLong(prefix, ns, n) && IsLong(prefix, ns, n') {
      NineIsEnough(hasher, full, MAX_RESOURCE_LENGTH);
      NineIsEnough(hasher, full', MAX_RESOURCE_LENGTH);
      TruncatedNamesDecode(hasher, full, full', MAX_RESOURCE_LENGTH);
      FullNameShape(prefix, ns, n);
      FullNameShape(prefix, ns, n');
      LowerIsIdentity(Visible(hasher, full));
      LowerIsIdentity(Visible(hasher, full'));
    }
    if !IsLong(prefix, ns, n) && !IsLong(prefix, ns, n') {
      assert n == full[|prefix| + |ns| + 2..] && n' == full'[|prefix| + |ns| + 2..];
    }
  }

  /** `twin` is another object of the namespace, with a short name, and gets the name of `n`. */
  predicate IsShortTwin(hasher: Hasher, prefix: string, ns: string, n: string, twin: string) {
    && IsObjectName(twin) && !IsLong(prefix, ns, twin)
    && ResourceName(hasher, prefix, ns, twin) == ResourceName(hasher, prefix, ns, n)
  }

  /** Where the cut leaves a name behind: right after the namespace, so that the hash stands for
      the whole name, or behind a character of the name that is not a dot. */
  predicate CutLeavesName(hasher: Hasher, prefix: string, ns: string, n: string) {
    var start := |prefix| + |ns| + 2;
    var kept := Visible(hasher, FullName(prefix, ns, n));
    |kept| + 1 == start || (start < |kept| && kept[|kept| - 1] != '.')
  }

  /** Names are not unique within a namespace, whatever the hash: an over-long name shares its
      resource name with the short name spelled like the truncated one, exactly when the cut
      leaves a name Kubernetes admits. */
  lemma LongNameHasShortTwinIff(hasher: Hasher, prefix: string, ns: string, n: string)
    requires prefix != "" && OverLabelAlphabet(prefix) && OverLabelAlphabet(ns) && IsObjectName(n)
    requires IsLong(prefix, ns, n)
    ensures (exists twin :: IsShortTwin(hasher, prefix, ns, n, twin)) <==> CutLeavesName(hasher, prefix, ns, n)
  {
    if CutLeavesName(hasher, prefix, ns, n) {
      var twin := ShortTwin(hasher, prefix, ns, n);
    }
    forall twin | IsShortTwin(hasher, prefix, ns, n, twin)
      ensures CutLeavesName(hasher, prefix, ns, n)
    {
      TwinNeedsRoom(hasher, prefix, ns, n, twin);
    }
  }

  lemma ShortTwin(hasher: Hasher, prefix: string, ns: string, n: string) returns (twin: string)
    requires prefix != "" && OverLabelAlphabet(prefix) && OverLabelAlphabet(ns) && IsObjectName(n)
    requires IsLong(prefix, ns, n) && CutLeavesName(hasher, prefix, ns, n)
    ensures IsShortTwin(hasher, prefix, ns, n, twin) && twin != n
  {
    var full := FullName(prefix, ns, n);
    NineIsEnough(hasher, full, MAX_RESOURCE_LENGTH);
    var long := LongName(hasher, full);
    var start := |prefix| + |ns| + 2;
    twin := long[start..];
    assert long[..start] == full[..start] == prefix + "-" + ns + "-";
    assert FullName(prefix, ns, twin) == long;
    TwinIsObjectName(hasher, prefix, ns, n);
    NameOfObject(hasher, prefix, ns, twin);
    NameOfObject(hasher, prefix, ns, n);
  }

  lemma TwinIsObjectName(hasher: Hasher, prefix: string, ns: string, n: string)
    requires IsObjectName(n) && IsLong(prefix, ns, n) && CutLeavesName(hasher, prefix, ns, n)
    ensures var long := LongName(hasher, FullName(prefix, ns, n));
            |prefix| + |ns| + 2 < |long| && IsObjectName(long[|prefix| + |ns| + 2..])
  {
    var full, start := FullName(prefix, ns, n), |prefix| + |ns| + 2;
    NineIsEnough(hasher, full, MAX_RESOURCE_LENGTH);
    HashIsHex(hasher, full);
    var kept := Visible(hasher, full);
    if start < |kept| {
      assert |full| == start + |n|;
      CutFullName(prefix, ns, n, |kept|);
    }
    TailIsObjectName(kept, HashText(hasher, full), start, n);
  }

  lemma CutFullName(prefix: string, ns: string, n: string, length: nat)
    requires |prefix| + |ns| + 2 < length <= |FullName(prefix, ns, n)|
    ensures var (start, kept) := (|prefix| + |ns| + 2, FullName(prefix, ns, n)[..length]);
            length - start <= |n| && kept[start..] == n[..length - start]
  {
    assert FullName(prefix, ns, n)[|prefix| + |ns| + 2..] == n;
  }

  lemma TailIsObjectName(kept: string, hash: string, start: nat, n: string)
    requires IsObjectName(n) && IsHex(hash)
    requires
      || |kept| + 1 == start
      || (start < |kept| && |kept| - start < |n| && kept[start..] == n[..|kept| - start] && kept[|kept| - 1] != '.')
    ensures IsObjectName((kept + "-" + hash)[start..])
  {
    var tail := (kept + "-" + hash)[start..];
    if start < |kept| {
      var k := |kept| - start;
      assert kept[|kept| - 1] == kept[start..][k - 1] == n[k - 1];
      assert tail == kept[start..] + "-" + hash;
      CutName(n, k, hash);
    } else {
      assert tail == hash;
    }
  }

  lemma CutName(n: string, k: nat, hash: string)
    requires IsObjectName(n) && 0 < k < |n| && n[k - 1] != '.'
    requires IsHex(hash)
    ensures IsObjectName(n[..k] + "-" + hash)
  {
    var s := n[..k] + "-" + hash;
    assert forall i :: 0 <= i < k ==> s[i] == n[i];
    assert forall i :: k < i < |s| ==> s[i] == hash[i - k - 1];
  }

  lemma TwinNeedsRoom(hasher: Hasher, prefix: string, ns: string, n: string, twin: string)
    requires prefix != "" && OverLabelAlphabet(prefix) && OverLabelAlphabet(ns) && IsObjectName(n)
    requires IsLong(prefix, ns, n) && IsShortTwin(hasher, prefix, ns, n, twin)
    ensures CutLeavesName(hasher, prefix, ns, n)
  {
    var full := FullName(prefix, ns, n);
    NameOfObject(hasher, prefix, ns, n);
    NameOfObject(hasher, prefix, ns, twin);
    NineIsEnough(hasher, full, MAX_RESOURCE_LENGTH);
    HashIsHex(hasher, full);
    TailNeedsRoom(Visible(hasher, full), HashText(hasher, full), prefix + "-" + ns + "-", twin);
  }

  lemma TailNeedsRoom(kept: string, hash: string, head: string, twin: string)
    requires IsHex(hash) && IsObjectName(twin) && EndsWithDash(head) && kept + "-" + hash == head + twin
    ensures |kept| + 1 == |head| || (|head| < |kept| && kept[|kept| - 1] != '.')
  {
    var long, start := kept + "-" + hash, |head|;
    LastDash(kept, hash);
    assert long[start - 1] == '-' && long[start..] == twin;
    if start <= |kept| {
      assert twin[|kept| - start] == '-';
      if start < |kept| {
        assert twin[|kept| - 1 - start] == kept[|kept| - 1];
      }
    }
  }
}
