/** The image builder and the loader that undoes it. */
module Image {
  import opened Bytes

  const SECTOR: int := 512
  const PAGE: int := 4096
  const INFO: int := 88                   // sizeof(task_info_t)
  const NAME: int := 64                   // MAX_NAME_LEN
  const MAX_TASKS: int := 16
  const U32: int := 0x1_0000_0000
  const IMAGE_SIZE_LOC: int := 0x1f2
  const SLAVE_HART_LOC: int := 0x1f4
  const TASKNUM_LOC: int := 0x1f6
  const INFO_LOC: int := 0x1f8
  const OS_SIZE_LOC: int := 0x1fc

  /** A program header: its type is PT_LOAD or not; `data` are its p_filesz bytes. */
  datatype Segment = Segment(load: bool, data: seq<int>, memsz: int)

  datatype File = File(name: string, entry: int, segs: seq<Segment>)

  datatype Info = Info(name: string, entry: int, sectors: int, first: int, offset: int, memsize: int)

  // ---------------------------------------------------------------- layout

  function Zeros(n: int): (z: seq<int>)
    ensures |z| == (if n < 0 then 0 else n) && forall i :: 0 <= i < |z| ==> z[i] == 0
  {
    seq(if n < 0 then 0 else n, i => 0)
  }

  /** The bytes of the first n program headers that reach the image. */
  function Body(segs: seq<Segment>, n: nat): seq<int>
    requires n <= |segs|
  {
    if n == 0 then []
    else Body(segs, n - 1) + if segs[n - 1].load && segs[n - 1].memsz != 0 then segs[n - 1].data else []
  }

  /** `get_filesz` and `get_memsz` summed over the loadable ones. */
  function FileSize(segs: seq<Segment>, n: nat): nat
    requires n <= |segs|
  {
    if n == 0 then 0 else FileSize(segs, n - 1) + if segs[n - 1].load then |segs[n - 1].data| else 0
  }

  function MemSize(segs: seq<Segment>, n: nat): int
    requires n <= |segs|
  {
    if n == 0 then 0 else MemSize(segs, n - 1) + if segs[n - 1].load then segs[n - 1].memsz else 0
  }

  function Payload(f: File): seq<int> {
    Body(f.segs, |f.segs|)
  }

  /** The padding that follows a file, by its name. */
  function Padding(end: int, name: string, room: int): seq<int> {
    if name == "bootblock" then Zeros(SECTOR - end) else if name == "main" then Zeros(room) else []
  }

  function Padded(img: seq<int>, name: string, room: int): seq<int> {
    img + Padding(|img|, name, room)
  }

  /** The image after n files, before the task information is filled in. */
  function Laid(files: seq<File>, n: nat): seq<int>
    requires n <= |files|
  {
    if n == 0 then [] else Padded(Laid(files, n - 1) + Payload(files[n - 1]), files[n - 1].name, Room(files))
  }

  function Room(files: seq<File>): int {
    INFO * (|files| - 2)
  }

  function RoundUp(a: int): int {
    (a + SECTOR - 1) / SECTOR * SECTOR
  }

  function RoundDown(a: int): int {
    a / SECTOR * SECTOR
  }

  /** `taskinfo[i - 2]`, for file i. */
  function InfoOf(files: seq<File>, i: nat): Info
    requires 2 <= i < |files|
  {
    var begin, end := |Laid(files, i)|, |Laid(files, i + 1)|;
    Info(files[i].name, files[i].entry, (RoundUp(end) - RoundDown(begin)) / SECTOR, begin / SECTOR, begin % SECTOR,
         MemSize(files[i].segs, |files[i].segs|))
  }

  function Infos(files: seq<File>, n: nat): (r: seq<Info>)
    requires n <= |files|
  {
    if n <= 2 then [] else Infos(files, n - 1) + [InfoOf(files, n - 1)]
  }

  lemma {:induction false} InfosAre(files: seq<File>, n: nat)
    requires n <= |files|
    ensures |Infos(files, n)| == if n <= 2 then 0 else n - 2
    ensures forall j :: 0 <= j < |Infos(files, n)| ==> Infos(files, n)[j] == InfoOf(files, j + 2)
  {
    hide InfoOf;
    if n > 2 {
      InfosAre(files, n - 1);
    }
  }

  /** `nbytes_kernel` after n files. */
  function KernelBytes(files: seq<File>, n: nat): nat
    requires n <= |files|
  {
    if n == 0 then 0
    else
      KernelBytes(files, n - 1)
      + if files[n - 1].name == "main" then FileSize(files[n - 1].segs, |files[n - 1].segs|) else 0
  }

  // ---------------------------------------------------------------- the task information

  function NameBytes(name: string): seq<int> {
    seq(|name|, i requires 0 <= i < |name| => name[i] as int) + Zeros(NAME - |name|)
  }

  function EncodeInfo(t: Info): seq<int> {
    NameBytes(t.name) + Encode(t.entry, 8) + Encode(t.sectors, 4) + Encode(t.first, 4) + Encode(t.offset, 4)
    + Encode(t.memsize, 4)
  }

  function EncodeInfos(ts: seq<Info>): seq<int> {
    if ts == [] then [] else EncodeInfo(ts[0]) + EncodeInfos(ts[1..])
  }

  /** `fseek` and `fwrite`: a write past the end leaves zeros in between. */
  function Overwrite(img: seq<int>, at: nat, s: seq<int>): (r: seq<int>)
    ensures |r| == if |img| < at + |s| then at + |s| else |img|
    ensures forall j :: 0 <= j < |r| ==>
              r[j] == if at <= j < at + |s| then s[j - at] else if j < |img| then img[j] else 0
  {
    var base := img + Zeros(at + |s| - |img|);
    base[..at] + s + base[at + |s|..]
  }

  function SectorsOf(n: int): int {
    n / SECTOR + if n % SECTOR != 0 then 1 else 0
  }

  // ---------------------------------------------------------------- what the builder is given

  /** A segment's memory image is at least as large as its file image. */
  predicate SegmentOk(s: Segment) {
    |s.data| <= s.memsz
  }

  predicate FileOk(f: File) {
    forall j :: 0 <= j < |f.segs| ==> SegmentOk(f.segs[j])
  }

  /** The boot block, which fits one sector, then the kernel, then at most sixteen tasks with other names. */
  predicate FilesOk(files: seq<File>) {
    && 2 <= |files| <= 2 + MAX_TASKS
    && files[0].name == "bootblock" && files[1].name == "main" && |Payload(files[0])| <= SECTOR
    && (forall i :: 2 <= i < |files| ==> files[i].name != "bootblock" && files[i].name != "main")
    && (forall i :: 0 <= i < |files| ==> FileOk(files[i]))
  }

  lemma {:induction false} BodyFits(segs: seq<Segment>, n: nat)
    requires n <= |segs| && forall j :: 0 <= j < |segs| ==> SegmentOk(segs[j])
    ensures |Body(segs, n)| == FileSize(segs, n) <= MemSize(segs, n)
  {
    if n > 0 {
      BodyFits(segs, n - 1);
      assert SegmentOk(segs[n - 1]);
    }
  }

  // ---------------------------------------------------------------- what a file's bytes are

  /** Segment j reaches the image. */
  predicate Reaches(segs: seq<Segment>, j: int) {
    0 <= j < |segs| && segs[j].load && segs[j].memsz != 0
  }

  /** The bytes of the segments before j that reach the image. */
  function Before(segs: seq<Segment>, j: nat): nat
    requires j <= |segs|
  {
    if j == 0 then 0 else Before(segs, j - 1) + if Reaches(segs, j - 1) then |segs[j - 1].data| else 0
  }

  /** Every loadable segment's own bytes stand right behind those of the segments before it, and nothing else does. */
  lemma {:induction false} SegmentAt(segs: seq<Segment>, n: nat, j: nat)
    requires j <= n <= |segs|
    ensures |Body(segs, n)| == Before(segs, n) && Before(segs, j) <= Before(segs, n)
    ensures j < n && Reaches(segs, j) ==>
              && Before(segs, j) + |segs[j].data| <= |Body(segs, n)|
              && Body(segs, n)[Before(segs, j)..Before(segs, j) + |segs[j].data|] == segs[j].data
  {
    if n > 0 {
      var b, d := Body(segs, n - 1), if Reaches(segs, n - 1) then segs[n - 1].data else [];
      assert Body(segs, n) == b + d;
      if j < n {
        SegmentAt(segs, n - 1, j);
        if j == n - 1 {
          assert (b + d)[|b|..|b| + |d|] == d;
        } else if Reaches(segs, j) {
          InPrefix(b + d, b, Before(segs, j), Before(segs, j) + |segs[j].data|);
        }
      } else {
        SegmentAt(segs, n - 1, n - 1);
      }
    }
  }

  /** The memory size is at least that of any loadable segment, and exactly that of an only one. */
  lemma {:induction false} MemSizeOf(segs: seq<Segment>, n: nat, j: nat)
    requires j < n <= |segs| && segs[j].load && forall l :: 0 <= l < |segs| ==> SegmentOk(segs[l])
    ensures segs[j].memsz <= MemSize(segs, n)
    ensures (forall l :: 0 <= l < n && l != j ==> !segs[l].load) ==> MemSize(segs, n) == segs[j].memsz
  {
    assert SegmentOk(segs[n - 1]);
    if j < n - 1 {
      MemSizeOf(segs, n - 1, j);
    } else {
      BodyFits(segs, n - 1);
      NoMemory(segs, n - 1);
    }
  }

  lemma {:induction false} NoMemory(segs: seq<Segment>, n: nat)
    requires n <= |segs|
    ensures (forall l :: 0 <= l < n ==> !segs[l].load) ==> MemSize(segs, n) == 0
  {
    if n > 0 {
      NoMemory(segs, n - 1);
    }
  }

  // ---------------------------------------------------------------- where things lie

  lemma {:induction false} LaidPrefix(files: seq<File>, m: nat, n: nat)
    requires m <= n <= |files|
    ensures |Laid(files, m)| <= |Laid(files, n)| && Laid(files, n)[..|Laid(files, m)|] == Laid(files, m)
    decreases n - m
  {
    hide Laid, Payload, Padding;
    if m < n {
      LaidPrefix(files, m, n - 1);
      LaidNext(files, n - 1);
      var a, b := Laid(files, n - 1), Laid(files, n);
      assert |a| <= |b| && b[..|a|] == a;
      InPrefix(b, a, 0, |Laid(files, m)|);
    }
  }

  /** A file's bytes start where its entry says. */
  lemma FileAt(files: seq<File>, i: nat)
    requires i < |files|
    ensures var b := |Laid(files, i)|;
            b + |Payload(files[i])| <= |Laid(files, |files|)|
              && Laid(files, |files|)[b..b + |Payload(files[i])|] == Payload(files[i])
  {
    hide Laid, Payload, Padding;
    LaidNext(files, i);
    LaidPrefix(files, i + 1, |files|);
    var x, y := Laid(files, i), Payload(files[i]);
    var z := Padding(|x + y|, files[i].name, Room(files));
    Middle(x, y, z);
    InPrefix(Laid(files, |files|), Laid(files, i + 1), |x|, |x| + |y|);
  }

  lemma LaidNext(files: seq<File>, i: nat)
    requires i < |files|
    ensures Laid(files, i + 1)
         == Laid(files, i) + Payload(files[i])
            + Padding(|Laid(files, i) + Payload(files[i])|, files[i].name, Room(files))
  {
  }

  lemma Middle(x: seq<int>, y: seq<int>, z: seq<int>)
    ensures (x + y + z)[|x|..|x| + |y|] == y
  {
  }

  lemma InPrefix(l: seq<int>, m: seq<int>, b: nat, e: nat)
    requires b <= e <= |m| <= |l| && l[..|m|] == m
    ensures l[b..e] == m[b..e]
  {
    assert l[..|m|][b..e] == l[b..e];
  }

  lemma LaidGrows(files: seq<File>, m: nat, n: nat)
    requires m <= n <= |files|
    ensures |Laid(files, m)| <= |Laid(files, n)|
  {
    hide Laid;
    LaidPrefix(files, m, n);
  }

  /** The space reserved for the task information lies right behind the kernel, before the first task. */
  lemma ReservedAt(files: seq<File>)
    requires FilesOk(files)
    ensures KernelBytes(files, |files|) == |Payload(files[1])| && |Laid(files, 1)| == SECTOR
    ensures |Laid(files, 2)| == SECTOR + |Payload(files[1])| + Room(files) <= |Laid(files, |files|)|
    ensures forall j :: SECTOR + |Payload(files[1])| <= j < |Laid(files, 2)| ==> Laid(files, |files|)[j] == 0
  {
    KernelIsMain(files, |files|);
    assert Laid(files, 0) == [] && [] + Payload(files[0]) == Payload(files[0]);
    assert Laid(files, 1) == Payload(files[0]) + Zeros(SECTOR - |Payload(files[0])|);
    assert Laid(files, 2) == Laid(files, 1) + Payload(files[1]) + Zeros(Room(files));
    LaidPrefix(files, 2, |files|);
    var l, m := Laid(files, |files|), Laid(files, 2);
    forall j | SECTOR + |Payload(files[1])| <= j < |m| ensures l[j] == 0 {
      assert l[j] == l[..|m|][j] == m[j];
    }
  }

  lemma {:induction false} KernelIsMain(files: seq<File>, n: nat)
    requires FilesOk(files) && n <= |files|
    ensures KernelBytes(files, n) == if n < 2 then 0 else |Payload(files[1])|
  {
    if n > 0 {
      KernelIsMain(files, n - 1);
      BodyFits(files[n - 1].segs, |files[n - 1].segs|);
    }
  }

  // ---------------------------------------------------------------- the finished image

  lemma {:induction false} InfosLength(ts: seq<Info>)
    requires forall i :: 0 <= i < |ts| ==> |ts[i].name| <= NAME
    ensures |EncodeInfos(ts)| == INFO * |ts|
  {
    if ts != [] {
      InfosLength(ts[1..]);
    }
  }

  predicate NamesOk(files: seq<File>) {
    forall i :: 2 <= i < |files| ==>
      |files[i].name| < NAME && forall j :: 0 <= j < |files[i].name| ==> 0 < files[i].name[j] as int
  }

  /** `write_img_info`: where it writes what, in order. */
  function Header(files: seq<File>, imageBytes: int): seq<int> {
    Encode(SectorsOf(imageBytes), 2) + Encode(0, 2) + Encode(|files| - 2, 2) + Encode(KernelBytes(files, |files|), 4)
    + Encode(SectorsOf(KernelBytes(files, |files|) + Room(files)), 2)
  }

  function Finished(files: seq<File>, imageBytes: int): (r: seq<int>)
    requires |files| >= 2
  {
    Overwrite(Overwrite(Laid(files, |files|), SECTOR + KernelBytes(files, |files|), EncodeInfos(Infos(files, |files|))),
              IMAGE_SIZE_LOC, Header(files, imageBytes))
  }

  /** The task information exactly fills the reserved space. */
  lemma InfosFill(files: seq<File>)
    requires FilesOk(files) && NamesOk(files)
    ensures |EncodeInfos(Infos(files, |files|))| == Room(files)
    ensures SECTOR + KernelBytes(files, |files|) + Room(files) == |Laid(files, 2)| <= |Laid(files, |files|)|
  {
    hide Laid, Body, EncodeInfos;
    ReservedAt(files);
    NamesFit(files);
    InfosAre(files, |files|);
    InfosLength(Infos(files, |files|));
  }

  /** The late writes touch the header fields of the boot sector and the bytes reserved for them, nothing else. */
  lemma LateWrites(files: seq<File>, imageBytes: int, j: nat)
    requires FilesOk(files) && NamesOk(files) && j < |Laid(files, |files|)|
    requires !(IMAGE_SIZE_LOC <= j < OS_SIZE_LOC + 2)
    requires !(SECTOR + |Payload(files[1])| <= j < |Laid(files, 2)|)
    ensures |Finished(files, imageBytes)| == |Laid(files, |files|)|
    ensures Finished(files, imageBytes)[j] == Laid(files, |files|)[j]
  {
    InfosFill(files);
    ReservedAt(files);
  }

  /** So every task's bytes are in the finished image, where its information says. */
  lemma TaskAt(files: seq<File>, imageBytes: int, i: nat)
    requires FilesOk(files) && NamesOk(files) && 2 <= i < |files|
    ensures var t, img, n := InfoOf(files, i), Finished(files, imageBytes), |Payload(files[i])|;
            var b := SECTOR * t.first + t.offset;
            && b + n <= |img| && img[b..b + n] == Payload(files[i])
            && 0 <= t.first && 0 <= t.offset < SECTOR && t.offset + n <= SECTOR * t.sectors && n <= t.memsize
            && SECTOR * t.sectors < t.offset + n + SECTOR
  {
    hide Laid, Body, Finished, FileSize, MemSize, FilesOk, NamesOk, InfoOf, Payload;
    InfosFill(files);
    InfoFacts(files, i);
    TaskKept(files, imageBytes, i);
  }

  /** What the builder's sector arithmetic promises the loader. */
  lemma InfoFacts(files: seq<File>, i: nat)
    requires FilesOk(files) && 2 <= i < |files|
    ensures var t, n := InfoOf(files, i), |Payload(files[i])|;
            && |Laid(files, i)| == SECTOR * t.first + t.offset && 0 <= t.first && 0 <= t.offset < SECTOR
            && t.offset + n <= SECTOR * t.sectors < t.offset + n + SECTOR && n <= t.memsize
  {
    hide Laid, Body, FileSize, MemSize, RoundUp, RoundDown, FilesOk;
    TaskEnd(files, i);
    BodyFits(files[i].segs, |files[i].segs|);
    SectorCount(|Laid(files, i)|, |Payload(files[i])|);
  }

  lemma TaskEnd(files: seq<File>, i: nat)
    requires FilesOk(files) && 2 <= i < |files|
    ensures |Laid(files, i + 1)| == |Laid(files, i)| + |Payload(files[i])|
    ensures forall j :: 0 <= j < |files[i].segs| ==> SegmentOk(files[i].segs[j])
  {
    assert FileOk(files[i]);
  }

  lemma TaskKept(files: seq<File>, imageBytes: int, i: nat)
    requires FilesOk(files) && NamesOk(files) && 2 <= i < |files|
    ensures var b, n := |Laid(files, i)|, |Payload(files[i])|;
            b + n <= |Finished(files, imageBytes)| && Finished(files, imageBytes)[b..b + n] == Payload(files[i])
  {
    hide Laid, Body, FilesOk, NamesOk, Payload, KernelBytes, EncodeInfos, Infos, Encode, Overwrite;
    InfosFill(files);
    FileAt(files, i);
    ReservedAt(files);
    LaidGrows(files, 2, i);
    var l := Laid(files, |files|);
    HeaderLength(files, imageBytes);
    Untouched(l, SECTOR + KernelBytes(files, |files|), EncodeInfos(Infos(files, |files|)), IMAGE_SIZE_LOC,
              Header(files, imageBytes),
              |Laid(files, i)|, |Laid(files, i)| + |Payload(files[i])|);
  }

  lemma HeaderLength(files: seq<File>, imageBytes: int)
    ensures |Header(files, imageBytes)| == 12
  {
  }

  /** A range behind both writes stays as it was. */
  lemma Untouched(l: seq<int>, p: nat, s: seq<int>, q: nat, r: seq<int>, lo: nat, hi: nat)
    requires p + |s| <= lo <= hi <= |l| && q + |r| <= lo
    ensures |Overwrite(Overwrite(l, p, s), q, r)| == |l| && Overwrite(Overwrite(l, p, s), q, r)[lo..hi] == l[lo..hi]
  {
  }

  lemma SectorCount(b: int, n: int)
    requires 0 <= b && 0 <= n
    ensures var s := (RoundUp(b + n) - RoundDown(b)) / SECTOR;
            b % SECTOR + n <= SECTOR * s < b % SECTOR + n + SECTOR && b == SECTOR * (b / SECTOR) + b % SECTOR
  {
    var u, d := (b + n + SECTOR - 1) / SECTOR, b / SECTOR;
    assert RoundUp(b + n) - RoundDown(b) == SECTOR * (u - d);
  }

  // ---------------------------------------------------------------- reading the information back

  /** The record at position p, as the kernel finds it in memory. */
  function DecodeInfo(s: seq<int>, p: nat): Info
    requires p + INFO <= |s|
  {
    Info(CString(s[p..p + NAME]), Decode(s[p + 64..p + 72]), Decode(s[p + 72..p + 76]), Decode(s[p + 76..p + 80]),
         Decode(s[p + 80..p + 84]),
         Decode(s[p + 84..p + 88]))
  }

  /** The characters before the first zero byte. */
  function CString(s: seq<int>): string {
    if s == [] || !(0 < s[0] < 128) then "" else [s[0] as char] + CString(s[1..])
  }

  /** What fits the record's fields: names are shorter than 64 ASCII characters, addresses 64 bits, numbers 32 bits. */
  predicate InfoFits(t: Info) {
    && |t.name| < NAME && (forall j :: 0 <= j < |t.name| ==> 0 < t.name[j] as int < 128)
    && 0 <= t.entry < Pow256(8) && 0 <= t.sectors < Pow256(4) && 0 <= t.first < Pow256(4) && 0 <= t.offset < Pow256(4)
       && 0 <= t.memsize < Pow256(4)
  }

  lemma {:induction false} CStringOf(name: string, z: nat)
    requires forall j :: 0 <= j < |name| ==> 0 < name[j] as int < 128
    ensures CString(seq(|name|, i requires 0 <= i < |name| => name[i] as int) + Zeros(z + 1)) == name
  {
    var s := seq(|name|, i requires 0 <= i < |name| => name[i] as int) + Zeros(z + 1);
    if name != [] {
      CStringOf(name[1..], z);
      assert s[1..] == seq(|name| - 1, i requires 0 <= i < |name| - 1 => name[1..][i] as int) + Zeros(z + 1);
      assert name == [name[0]] + name[1..];
    }
  }

  lemma InfoRoundTrip(t: Info)
    requires InfoFits(t)
    ensures |EncodeInfo(t)| == INFO && DecodeInfo(EncodeInfo(t), 0) == t
  {
    hide Encode, Decode, CString, NameBytes, Pow256;
    CStringOf(t.name, NAME - |t.name| - 1);
    NameIs(t.name);
    Six(NameBytes(t.name), Encode(t.entry, 8), Encode(t.sectors, 4), Encode(t.first, 4), Encode(t.offset, 4),
        Encode(t.memsize, 4));
    DecodeEncode(t.entry, 8);
    DecodeEncode(t.sectors, 4);
    DecodeEncode(t.first, 4);
    DecodeEncode(t.offset, 4);
    DecodeEncode(t.memsize, 4);
  }

  /** Where in the 88 bytes each field is, as the loader's structure has them. */
  lemma RecordLayout(t: Info)
    requires InfoFits(t)
    ensures var r := EncodeInfo(t);
            && |r| == INFO && (forall j :: 0 <= j < |t.name| ==> r[j] == t.name[j] as int) && r[|t.name|] == 0
            && Decode(r[64..72]) == t.entry && Decode(r[72..76]) == t.sectors && Decode(r[76..80]) == t.first
            && Decode(r[80..84]) == t.offset && Decode(r[84..88]) == t.memsize
  {
    hide Encode, Decode, CString, NameBytes, Pow256;
    NameIs(t.name);
    Six(NameBytes(t.name), Encode(t.entry, 8), Encode(t.sectors, 4), Encode(t.first, 4), Encode(t.offset, 4),
        Encode(t.memsize, 4));
    DecodeEncode(t.entry, 8);
    DecodeEncode(t.sectors, 4);
    DecodeEncode(t.first, 4);
    DecodeEncode(t.offset, 4);
    DecodeEncode(t.memsize, 4);
  }

  lemma NameIs(name: string)
    requires |name| < NAME
    ensures NameBytes(name) == seq(|name|, i requires 0 <= i < |name| => name[i] as int) + Zeros(NAME - |name| - 1 + 1)
    ensures |NameBytes(name)| == NAME
  {
  }

  lemma Six(a: seq<int>, b: seq<int>, c: seq<int>, d: seq<int>, e: seq<int>, f: seq<int>)
    requires |a| == 64 && |b| == 8 && |c| == |d| == |e| == |f| == 4
    ensures var s := a + b + c + d + e + f;
            |s| == 88 && s[0..64] == a && s[64..72] == b && s[72..76] == c && s[76..80] == d && s[80..84] == e
              && s[84..88] == f
  {
  }

  function InfoPos(i: int): int {
    INFO * i
  }

  lemma {:induction false} InfosAt(ts: seq<Info>, i: nat)
    requires i < |ts| && forall j :: 0 <= j < |ts| ==> |ts[j].name| <= NAME
    ensures 0 <= InfoPos(i) && InfoPos(i) + INFO <= |EncodeInfos(ts)| == InfoPos(|ts|)
    ensures EncodeInfos(ts)[InfoPos(i)..InfoPos(i) + INFO] == EncodeInfo(ts[i])
  {
    hide EncodeInfo;
    InfosLength(ts);
    InfosLength(ts[1..]);
    InfoLength(ts[0]);
    var a, b := EncodeInfo(ts[0]), EncodeInfos(ts[1..]);
    if i == 0 {
      assert (a + b)[0..INFO] == a;
    } else {
      InfosAt(ts[1..], i - 1);
      Behind(a, b, InfoPos(i - 1), INFO);
    }
  }

  lemma InfoLength(t: Info)
    requires |t.name| <= NAME
    ensures |EncodeInfo(t)| == INFO
  {
  }

  lemma Behind(a: seq<int>, b: seq<int>, p: int, n: int)
    requires 0 <= p && 0 <= n && p + n <= |b|
    ensures (a + b)[|a| + p..|a| + p + n] == b[p..p + n]
  {
  }

  /** The kernel reads back, for every task, exactly the record the builder computed. */
  lemma InfoInImage(files: seq<File>, imageBytes: int, i: nat)
    requires FilesOk(files) && NamesOk(files) && 2 <= i < |files| && InfoFits(InfoOf(files, i))
    ensures var p := SECTOR + |Payload(files[1])| + InfoPos(i - 2);
            0 <= p && p + INFO <= |Finished(files, imageBytes)|
              && DecodeInfo(Finished(files, imageBytes), p) == InfoOf(files, i)
  {
    hide Laid, Body, EncodeInfo, InfoOf, DecodeInfo, Payload, InfoPos, EncodeInfos, Infos, Finished;
    InfosFill(files);
    ReservedAt(files);
    var ts := Infos(files, |files|);
    InfosAre(files, |files|);
    NamesFit(files);
    InfosAt(ts, i - 2);
    InfoRoundTrip(ts[i - 2]);
    InfoWritten(files, imageBytes, InfoPos(i - 2));
    DecodeShift(Finished(files, imageBytes), SECTOR + |Payload(files[1])| + InfoPos(i - 2), EncodeInfo(ts[i - 2]));
  }

  lemma NamesFit(files: seq<File>)
    requires NamesOk(files)
    ensures forall j :: 0 <= j < |Infos(files, |files|)| ==> |Infos(files, |files|)[j].name| <= NAME
  {
    hide Infos;
    InfosAre(files, |files|);
  }

  lemma InfoWritten(files: seq<File>, imageBytes: int, q: int)
    requires FilesOk(files) && NamesOk(files) && 0 <= q && q + INFO <= |EncodeInfos(Infos(files, |files|))|
    ensures var p := SECTOR + |Payload(files[1])| + q;
            p + INFO <= |Finished(files, imageBytes)| && Finished(files, imageBytes)[p..p + INFO]
              == EncodeInfos(Infos(files, |files|))[q..q + INFO]
  {
    hide Laid, Body, FilesOk, NamesOk, Payload, KernelBytes, EncodeInfos, Infos, Encode, Overwrite;
    InfosFill(files);
    ReservedAt(files);
    HeaderLength(files, imageBytes);
    Readable(Laid(files, |files|), SECTOR + KernelBytes(files, |files|), EncodeInfos(Infos(files, |files|)),
             IMAGE_SIZE_LOC,
             Header(files, imageBytes), q, INFO);
  }

  /** The first write can be read back if the second lies before it. */
  lemma Readable(l: seq<int>, p: nat, s: seq<int>, q: nat, r: seq<int>, a: nat, n: nat)
    requires q + |r| <= p && p + |s| <= |l| && a + n <= |s|
    ensures |Overwrite(Overwrite(l, p, s), q, r)| == |l|
            && Overwrite(Overwrite(l, p, s), q, r)[p + a..p + a + n] == s[a..a + n]
  {
    var o := Overwrite(Overwrite(l, p, s), q, r);
    var x, y := o[p + a..p + a + n], s[a..a + n];
    forall k | 0 <= k < n ensures x[k] == y[k] {
      assert o[p + a + k] == s[a + k];
    }
  }

  lemma DecodeShift(s: seq<int>, p: nat, e: seq<int>)
    requires p + INFO <= |s| && s[p..p + INFO] == e
    ensures DecodeInfo(s, p) == DecodeInfo(e, 0)
  {
    Sub(s, p, e, 0, 64);
    Sub(s, p, e, 64, 72);
    Sub(s, p, e, 72, 76);
    Sub(s, p, e, 76, 80);
    Sub(s, p, e, 80, 84);
    Sub(s, p, e, 84, 88);
  }

  lemma Sub(s: seq<int>, p: nat, e: seq<int>, a: nat, b: nat)
    requires p + |e| <= |s| && s[p..p + |e|] == e && a <= b <= |e|
    ensures s[p + a..p + b] == e[a..b]
  {
    forall k | 0 <= k < b - a ensures s[p + a..p + b][k] == e[a..b][k] {
      assert s[p..p + |e|][a + k] == s[p + a + k];
    }
  }

  // ---------------------------------------------------------------- building

  /** What `nbytes_image` gains for the first n program headers of a file. */
  function Counted(f: File, room: int, n: nat): int
    requires n <= |f.segs|
  {
    if n == 0 then 0
    else Counted(f, room, n - 1) + Share(f.name, f.segs[n - 1], room)
  }

  function Share(name: string, seg: Segment, room: int): int {
    if !seg.load then 0
    else if name == "main" then |seg.data| + room
    else if name == "bootblock" then SECTOR
    else |seg.data|
  }

  function ImageBytes(files: seq<File>, n: nat): int
    requires n <= |files|
  {
    if n == 0 then 0 else ImageBytes(files, n - 1) + Counted(files[n - 1], Room(files), |files[n - 1].segs|)
  }

  /** `write_segment` */
  method WriteSegment(seg: Segment, img: seq<int>) returns (img': seq<int>)
    ensures img' == img + if seg.load && seg.memsz != 0 then seg.data else []
  {
    img' := img;
    if seg.memsz != 0 && seg.load {
      var i := 0;
      while i < |seg.data|
        invariant 0 <= i <= |seg.data| && img' == img + seg.data[..i]
      {
        img' := img' + [seg.data[i]];
        i := i + 1;
      }
    }
  }

  /** `write_padding` */
  method WritePadding(img: seq<int>, end: int) returns (img': seq<int>)
    ensures img' == img + Zeros(end - |img|)
  {
    img' := img;
    while |img'| < end
      invariant |img| <= |img'| && img' == img + Zeros(|img'| - |img|) && (|img'| <= end || img' == img)
      decreases end - |img'|
    {
      ghost var z := Zeros(|img'| - |img|);
      img' := img' + [0];
      assert z + [0] == Zeros(|img'| - |img|);
    }
  }

  /** The body of the loop over files: the image grown by file f, its memory size and its share of the counters. */
  method WriteFile(f: File, room: int, img: seq<int>) returns (img': seq<int>, kernel: nat, image: int, memsize: int)
    ensures img' == Padded(img + Payload(f), f.name, room)
    ensures kernel == (if f.name == "main" then FileSize(f.segs, |f.segs|) else 0)
    ensures image == Counted(f, room, |f.segs|) && memsize == MemSize(f.segs, |f.segs|)
  {
    img', kernel, image, memsize := img, 0, 0, 0;
    var ph := 0;
    while ph < |f.segs|
      invariant 0 <= ph <= |f.segs| && img' == img + Body(f.segs, ph)
      invariant kernel == (if f.name == "main" then FileSize(f.segs, ph) else 0)
      invariant image == Counted(f, room, ph) && memsize == MemSize(f.segs, ph)
    {
      var seg := f.segs[ph];
      if seg.load {
        img' := WriteSegment(seg, img');
        if f.name == "main" {
          kernel := kernel + |seg.data|;
          image := image + |seg.data| + room;
        } else if f.name == "bootblock" {
          image := image + SECTOR;
        } else {
          image := image + |seg.data|;
        }
        memsize := memsize + seg.memsz;
      }
      ph := ph + 1;
    }
    if f.name == "bootblock" {
      img' := WritePadding(img', SECTOR);
    } else if f.name == "main" {
      img' := WritePadding(img', |img'| + room);
    }
  }

  /** `create_image` */
  method CreateImage(files: seq<File>) returns (img: seq<int>, infos: seq<Info>)
    requires 2 <= |files| <= 2 + MAX_TASKS
    ensures infos == Infos(files, |files|) && img == Finished(files, ImageBytes(files, |files|))
  {
    hide Laid, Infos, KernelBytes, ImageBytes, EncodeInfos, Encode;
    var kernel, image;
    img, infos, kernel, image := LayFiles(files);
    img := Overwrite(img, SECTOR + kernel, EncodeInfos(infos));
    img := WriteFields(img, image, |files| - 2, kernel, kernel + INFO * (|files| - 2));
  }

  /** The loop over the input files. */
  method LayFiles(files: seq<File>) returns (img: seq<int>, infos: seq<Info>, kernel: nat, image: int)
    ensures img == Laid(files, |files|) && infos == Infos(files, |files|)
    ensures kernel == KernelBytes(files, |files|) && image == ImageBytes(files, |files|)
  {
    hide Body, FileSize, MemSize, Counted, Padded, RoundUp, RoundDown, Payload;
    img, infos, kernel, image := [], [], 0, 0;
    var room := INFO * (|files| - 2);
    var i := 0;
    while i < |files|
      invariant 0 <= i <= |files| && img == Laid(files, i) && infos == Infos(files, i)
      invariant kernel == KernelBytes(files, i) && image == ImageBytes(files, i)
    {
      var begin := |img|;
      var k, m, memsize;
      img, k, m, memsize := WriteFile(files[i], room, img);
      kernel, image := kernel + k, image + m;
      if i - 2 >= 0 {
        infos := infos + [Info(files[i].name, files[i].entry, (RoundUp(|img|) - RoundDown(begin)) / SECTOR,
                               begin / SECTOR, begin % SECTOR, memsize)];
      }
      i := i + 1;
    }
  }

  function Fields(image: int, tasks: int, kernel: int, total: int): (r: seq<int>)
    ensures |r| == 12
  {
    Encode(SectorsOf(image), 2) + Encode(0, 2) + Encode(tasks, 2) + Encode(kernel, 4) + Encode(SectorsOf(total), 2)
  }

  /** The header part of `write_img_info`, field by field. */
  method WriteFields(img: seq<int>, image: int, tasks: int, kernel: int, total: int) returns (img': seq<int>)
    ensures img' == Overwrite(img, IMAGE_SIZE_LOC, Fields(image, tasks, kernel, total))
  {
    hide Encode, Overwrite;
    var a, b, c, d := Encode(SectorsOf(image), 2), Encode(0, 2), Encode(tasks, 2) + Encode(kernel, 4),
      Encode(SectorsOf(total), 2);
    img' := Overwrite(img, OS_SIZE_LOC, d);
    img' := Overwrite(img', TASKNUM_LOC, c);
    img' := Overwrite(img', SLAVE_HART_LOC, b);
    img' := Overwrite(img', IMAGE_SIZE_LOC, a);
    Adjacent(img, TASKNUM_LOC, c, d);
    Adjacent(img, SLAVE_HART_LOC, b, c + d);
    Adjacent(img, IMAGE_SIZE_LOC, a, b + (c + d));
    assert a + (b + (c + d)) == Fields(image, tasks, kernel, total);
  }

  lemma Adjacent(img: seq<int>, p: nat, a: seq<int>, b: seq<int>)
    ensures Overwrite(Overwrite(img, p + |a|, b), p, a) == Overwrite(img, p, a + b)
  {
    var l, r := Overwrite(Overwrite(img, p + |a|, b), p, a), Overwrite(img, p, a + b);
    hide Overwrite;
    assert |l| == |r| && forall j :: 0 <= j < |l| ==> l[j] == r[j];
  }

  // ---------------------------------------------------------------- loading

  /** The page count of `load_task_img`, in 32-bit arithmetic. */
  function Pages(memsize: int): int {
    PagesOf((memsize + SECTOR) % U32)
  }

  function PagesOf(n: int): int {
    n / PAGE + if n % PAGE != 0 then 1 else 0
  }

  lemma PagesHold(n: int)
    requires 0 <= n
    ensures n <= PAGE * PagesOf(n) < n + PAGE
  {
    assert n == PAGE * (n / PAGE) + n % PAGE;
  }

  /** The pages allocated hold every sector read, and so the offset as well, exactly when the sum does not wrap or
      the little that is left of it suffices. */
  lemma PagesCover(t: Info, n: int)
    requires 0 <= n <= t.memsize < U32 && 0 <= t.offset < SECTOR && 0 <= t.sectors
    requires SECTOR * t.sectors < t.offset + n + SECTOR
    ensures SECTOR * t.sectors <= PAGE * Pages(t.memsize)
       <==> t.memsize + SECTOR < U32 || t.sectors <= if t.memsize + SECTOR == U32 then 0 else PAGE / SECTOR
  {
    hide PagesOf;
    var spare := (t.memsize + SECTOR) % U32;
    PagesHold(spare);
    if t.memsize + SECTOR < U32 {
      assert spare == t.memsize + SECTOR;
      assert t.sectors < PAGE / SECTOR * PagesOf(spare) + 1;
    } else {
      assert spare == t.memsize + SECTOR - U32;
      assert PagesOf(spare) == if spare == 0 then 0 else 1;
    }
  }

  /** A task of one sector, all but 512 bytes short of 4 GiB in memory, gets no page at all. */
  lemma NoPageAtAll(t: Info)
    requires t.memsize == U32 - SECTOR && t.sectors == 1
    ensures Pages(t.memsize) == 0 && SECTOR * t.sectors > PAGE * Pages(t.memsize)
  {
  }

  /** `bios_sd_read` of n sectors into the buffer at `to`. */
  method ReadSectors(a: array<int>, to: nat, disk: seq<int>, sector: nat, n: nat)
    requires to + SECTOR * n <= a.Length && SECTOR * (sector + n) <= |disk|
    modifies a
    ensures forall j :: 0 <= j < a.Length ==>
              a[j] == if to <= j < to + SECTOR * n then disk[SECTOR * sector + (j - to)] else old(a[j])
  {
    var i := 0;
    while i < SECTOR * n
      invariant 0 <= i <= SECTOR * n
      invariant forall j :: 0 <= j < a.Length ==>
                  a[j] == if to <= j < to + i then disk[SECTOR * sector + (j - to)] else old(a[j])
    {
      a[to + i] := disk[SECTOR * sector + i];
      i := i + 1;
    }
  }

  /** The page loop of `load_task_img`. */
  method ReadTask(t: Info, disk: seq<int>, a: array<int>)
    requires 0 <= t.first && 0 <= SECTOR * t.sectors <= PAGE * Pages(t.memsize) == a.Length
    requires SECTOR * (t.first + t.sectors) <= |disk| && SECTOR * t.sectors < U32
    modifies a
    ensures a[..SECTOR * t.sectors] == disk[SECTOR * t.first..SECTOR * t.first + SECTOR * t.sectors]
  {
    hide Pages;
    var sectorNum, sectorPointer, i := t.sectors, t.first, 0;
    while i < Pages(t.memsize)
      invariant 0 <= i && (sectorNum > 0 ==> i <= Pages(t.memsize)) && 0 <= sectorNum <= t.sectors
      invariant sectorNum > 0 ==>
                  SECTOR * (t.sectors - sectorNum) == PAGE * i && sectorPointer == t.first + t.sectors - sectorNum
      invariant forall j :: 0 <= j < SECTOR * (t.sectors - sectorNum) ==> a[j] == disk[SECTOR * t.first + j]
    {
      if sectorNum * SECTOR % U32 >= PAGE {
        ReadSectors(a, PAGE * i, disk, sectorPointer, PAGE / SECTOR);
        sectorNum := sectorNum - PAGE / SECTOR;
        sectorPointer := sectorPointer + PAGE / SECTOR;
      } else if sectorNum > 0 {
        ReadSectors(a, PAGE * i, disk, sectorPointer, sectorNum);
        sectorNum := 0;
      }
      i := i + 1;
    }
  }

  /** `load_task_img`, with the task's memory from its entry point on as one array. */
  method LoadTaskImg(t: Info, disk: seq<int>, a: array<int>)
    requires 0 <= t.first && 0 <= t.offset <= SECTOR * t.sectors <= PAGE * Pages(t.memsize) == a.Length
    requires SECTOR * (t.first + t.sectors) <= |disk| && SECTOR * t.sectors < U32
    modifies a
    ensures a[..SECTOR * t.sectors - t.offset]
            == disk[SECTOR * t.first + t.offset..SECTOR * t.first + SECTOR * t.sectors]
  {
    hide Pages, Copied;
    ReadTask(t, disk, a);
    Shifted(a[..], disk, SECTOR * t.first, t.offset, SECTOR * t.sectors);
    Memcpy(a, 0, t.offset, SECTOR * t.sectors - t.offset);
  }

  /** Moving the bytes down by the offset leaves exactly those behind it. */
  lemma Shifted(s: seq<int>, disk: seq<int>, b: nat, off: nat, n: nat)
    requires off <= n <= |s| && b + n <= |disk| && s[..n] == disk[b..b + n]
    ensures Copied(s, 0, off, n - off)[..n - off] == disk[b + off..b + n]
  {
    var c := Copied(s, 0, off, n - off);
    forall j | 0 <= j < n - off ensures c[j] == disk[b + off..b + n][j] {
      assert c[j] == s[..n][j + off];
    }
  }

  // ---------------------------------------------------------------- building and loading

  /** What a write at q leaves there. */
  lemma WrittenAt(img: seq<int>, q: nat, r: seq<int>, a: nat, b: nat)
    requires a <= b <= |r|
    ensures q + b <= |Overwrite(img, q, r)| && Overwrite(img, q, r)[q + a..q + b] == r[a..b]
  {
    forall k | 0 <= k < b - a ensures Overwrite(img, q, r)[q + a..q + b][k] == r[a..b][k] {
      assert Overwrite(img, q, r)[q + a + k] == r[a + k];
    }
  }

  /** The header fields the kernel looks at. */
  lemma HeaderFields(files: seq<File>, imageBytes: int)
    requires |files| >= 2
    ensures var img := Finished(files, imageBytes);
            && |img| >= INFO_LOC + 4
            && img[IMAGE_SIZE_LOC..IMAGE_SIZE_LOC + 2] == Encode(SectorsOf(imageBytes), 2)
            && img[SLAVE_HART_LOC..SLAVE_HART_LOC + 2] == Encode(0, 2)
            && img[TASKNUM_LOC..TASKNUM_LOC + 2] == Encode(|files| - 2, 2)
            && img[INFO_LOC..INFO_LOC + 4] == Encode(KernelBytes(files, |files|), 4)
            && |img| >= OS_SIZE_LOC + 2
            && img[OS_SIZE_LOC..OS_SIZE_LOC + 2] == Encode(SectorsOf(KernelBytes(files, |files|) + Room(files)), 2)
  {
    hide Laid, KernelBytes, EncodeInfos, Infos, Encode, Overwrite;
    var img1 := Overwrite(Laid(files, |files|), SECTOR + KernelBytes(files, |files|),
                          EncodeInfos(Infos(files, |files|)));
    var h := Header(files, imageBytes);
    WrittenAt(img1, IMAGE_SIZE_LOC, h, 0, 2);
    WrittenAt(img1, IMAGE_SIZE_LOC, h, 2, 4);
    WrittenAt(img1, IMAGE_SIZE_LOC, h, 4, 6);
    WrittenAt(img1, IMAGE_SIZE_LOC, h, 6, 10);
    WrittenAt(img1, IMAGE_SIZE_LOC, h, 10, 12);
    Five(Encode(SectorsOf(imageBytes), 2), Encode(0, 2), Encode(|files| - 2, 2), Encode(KernelBytes(files, |files|), 4),
         Encode(SectorsOf(KernelBytes(files, |files|) + Room(files)), 2));
  }

  lemma Five(a: seq<int>, b: seq<int>, c: seq<int>, d: seq<int>, e: seq<int>)
    requires |a| == |b| == |c| == |e| == 2 && |d| == 4
    ensures var s := a + b + c + d + e; s[0..2] == a && s[2..4] == b && s[4..6] == c && s[6..10] == d && s[10..12] == e
  {
  }

  /** What the boot code reads: the number of tasks, an open lock for the second hart, and as many sectors as hold the
      kernel and the records but no more. */
  lemma BootFields(files: seq<File>, imageBytes: int)
    requires FilesOk(files) && NamesOk(files) && KernelBytes(files, |files|) + Room(files) < 0x8000 * SECTOR
    ensures var img := Finished(files, imageBytes);
            && |img| >= OS_SIZE_LOC + 2
            && Decode(img[TASKNUM_LOC..TASKNUM_LOC + 2]) == |files| - 2
            && Decode(img[SLAVE_HART_LOC..SLAVE_HART_LOC + 2]) == 0
            && var n := SECTOR * Decode(img[OS_SIZE_LOC..OS_SIZE_LOC + 2]);
               |Payload(files[1])| + Room(files) <= n < |Payload(files[1])| + Room(files) + SECTOR
  {
    hide Laid, Finished, NamesOk, KernelBytes, Encode, Decode, Payload, FileOk;
    HeaderFields(files, imageBytes);
    ReservedAt(files);
    Low16(|files| - 2);
    Low16(0);
    Low16(SectorsOf(KernelBytes(files, |files|) + Room(files)));
  }

  lemma FourBytes()
    ensures Pow256(4) == 0x1_0000_0000
  {
  }

  /** Where the kernel looks for the record of task k: the field holds the kernel's size, a signed word. */
  function RecordAt(disk: seq<int>, k: nat): int
    requires |disk| >= INFO_LOC + 4
  {
    SECTOR + Decode(disk[INFO_LOC..INFO_LOC + 4]) + InfoPos(k)
  }

  /** On a card holding the image, the kernel finds every task's record. */
  lemma RecordFound(files: seq<File>, disk: seq<int>, i: nat)
    requires FilesOk(files) && NamesOk(files) && 2 <= i < |files| && InfoFits(InfoOf(files, i))
    requires KernelBytes(files, |files|) < 0x8000_0000 && OnCard(files, disk)
    ensures |disk| >= INFO_LOC + 4 && 0 <= RecordAt(disk, i - 2) <= |disk| - INFO
    ensures var t := DecodeInfo(disk, RecordAt(disk, i - 2));
            && t == InfoOf(files, i) && t.name == files[i].name && t.entry == files[i].entry
            && t.memsize == MemSize(files[i].segs, |files[i].segs|)
  {
    hide Laid, Finished, FilesOk, NamesOk, Payload, InfoOf, InfoFits, Pow256, KernelBytes, Encode, DecodeInfo,
         ImageBytes, InfoPos;
    var bytes := ImageBytes(files, |files|);
    var img := Finished(files, bytes);
    HeaderFields(files, bytes);
    FourBytes();
    DecodeEncode(KernelBytes(files, |files|), 4);
    ReservedAt(files);
    InfoInImage(files, bytes, i);
    InPrefix(disk, img, INFO_LOC, INFO_LOC + 4);
    var p := RecordAt(disk, i - 2);
    InPrefix(disk, img, p, p + INFO);
    DecodeShift(disk, p, img[p..p + INFO]);
    DecodeShift(img, p, img[p..p + INFO]);
    RecordIs(files, i);
  }

  lemma RecordIs(files: seq<File>, i: nat)
    requires 2 <= i < |files|
    ensures var t := InfoOf(files, i);
            t.name == files[i].name && t.entry == files[i].entry && t.memsize == MemSize(files[i].segs, |files[i].segs|)
  {
    hide Laid;
  }

  /** The card starts with the finished image. */
  predicate OnCard(files: seq<File>, disk: seq<int>)
    requires |files| >= 2
  {
    var img := Finished(files, ImageBytes(files, |files|));
    |img| <= |disk| && disk[..|img|] == img
  }

  /** Agreement with the card on m bytes is agreement on fewer. */
  lemma Shorter(s: seq<int>, m: nat, disk: seq<int>, b: nat, n: nat)
    requires n <= m <= |s| && b + m <= |disk| && s[..m] == disk[b..b + m]
    ensures s[..n] == disk[b..b + n]
  {
    assert s[..n] == s[..m][..n];
  }

  /** Building and loading: at a task's entry point lie exactly the bytes of its loadable segments, loaded by the record
      read from the card. */
  method LoadBuilt(files: seq<File>, i: nat, disk: seq<int>, a: array<int>)
    requires FilesOk(files) && NamesOk(files) && 2 <= i < |files| && InfoFits(InfoOf(files, i))
    requires KernelBytes(files, |files|) < 0x8000_0000 && OnCard(files, disk)
    requires SECTOR * (InfoOf(files, i).first + InfoOf(files, i).sectors) <= |disk|
    requires a.Length == PAGE * Pages(InfoOf(files, i).memsize) && InfoOf(files, i).memsize + 2 * SECTOR <= U32
    modifies a
    ensures |Payload(files[i])| <= a.Length && a[..|Payload(files[i])|] == Payload(files[i])
    ensures forall j :: Reaches(files[i].segs, j) ==>
              var off, data := Before(files[i].segs, j), files[i].segs[j].data;
              off + |data| <= a.Length && a[off..off + |data|] == data
  {
    hide Finished, FilesOk, NamesOk, Payload, InfoOf, Pages, InfoFits, Pow256, KernelBytes, ImageBytes, DecodeInfo,
         RecordAt;
    ghost var bytes := ImageBytes(files, |files|);
    RecordFound(files, disk, i);
    var t := DecodeInfo(disk, RecordAt(disk, i - 2));
    var n := |Payload(files[i])|;
    TaskAt(files, bytes, i);
    PagesCover(t, n);
    LoadTaskImg(t, disk, a);
    var b := SECTOR * t.first + t.offset;
    InPrefix(disk, Finished(files, bytes), b, b + n);
    Shorter(a[..], SECTOR * t.sectors - t.offset, disk, b, n);
    SegmentsIn(files[i], a[..]);
  }

  /** Where a file's bytes are, each of its segments is. */
  lemma SegmentsIn(f: File, s: seq<int>)
    requires |Payload(f)| <= |s| && s[..|Payload(f)|] == Payload(f)
    ensures forall j :: Reaches(f.segs, j) ==>
              var off, data := Before(f.segs, j), f.segs[j].data; off + |data| <= |s| && s[off..off + |data|] == data
  {
    hide Body, Before;
    forall j | Reaches(f.segs, j)
      ensures var off, data := Before(f.segs, j), f.segs[j].data; off + |data| <= |s| && s[off..off + |data|] == data
    {
      SegmentAt(f.segs, |f.segs|, j);
      InPrefix(s, Payload(f), Before(f.segs, j), Before(f.segs, j) + |f.segs[j].data|);
    }
  }

  /** The kernel's segments follow the boot sector in the finished image. */
  lemma KernelAt(files: seq<File>, imageBytes: int, j: nat)
    requires FilesOk(files) && NamesOk(files) && Reaches(files[1].segs, j)
    ensures var off, data, img := SECTOR + Before(files[1].segs, j), files[1].segs[j].data, Finished(files, imageBytes);
            off + |data| <= |img| && img[off..off + |data|] == data
  {
    hide Laid, Body, Finished, NamesOk, Before, FileOk;
    ReservedAt(files);
    FileAt(files, 1);
    SegmentAt(files[1].segs, |files[1].segs|, j);
    FinishedLength(files, imageBytes);
    var off, data, img := SECTOR + Before(files[1].segs, j), files[1].segs[j].data, Finished(files, imageBytes);
    var l, p := Laid(files, |files|), Payload(files[1]);
    forall i | 0 <= i < |data| ensures img[off..off + |data|][i] == data[i] {
      LateWrites(files, imageBytes, off + i);
      assert l[SECTOR..SECTOR + |p|][Before(files[1].segs, j) + i] == l[off + i];
      assert p[Before(files[1].segs, j)..Before(files[1].segs, j) + |data|][i] == data[i];
    }
  }

  // ---------------------------------------------------------------- where swapping starts

  /** `(uint64_t) *(short *)`: sixteen bits, sign-extended to 64. */
  function Widened(x: int): int {
    if x < 0x8000 then x else x + 0xFFFF_FFFF_FFFF_0000
  }

  /** The initial `sd_sector_end`. */
  function SwapStart(img: seq<int>): int
    requires |img| >= IMAGE_SIZE_LOC + 2
  {
    Widened(Decode(img[IMAGE_SIZE_LOC..IMAGE_SIZE_LOC + 2]))
  }

  lemma Halves(n: int)
    requires 0 <= n
    ensures n % 0x1_0000 == n % 256 + 256 * (n / 256 % 256)
  {
    var a, b := n / 256, n % 256;
    var c, d := a / 256, a % 256;
    assert n == 0x1_0000 * c + (256 * d + b) && 0 <= 256 * d + b < 0x1_0000;
  }

  lemma TwoBytes(n: int)
    requires 0 <= n
    ensures Encode(n, 2) == [n % 256] + [n / 256 % 256]
  {
    assert Encode(n / 256, 1) == [n / 256 % 256] + Encode(n / 256 / 256, 0);
  }

  lemma Low16(n: int)
    requires 0 <= n
    ensures Decode(Encode(n, 2)) == n % 0x1_0000
  {
    var lo, hi := n % 256, n / 256 % 256;
    TwoBytes(n);
    Halves(n);
    assert ([lo] + [hi])[1..] == [hi] && [hi][1..] == [];
    assert Decode([hi]) == hi + 256 * Decode([]);
    assert Decode([lo] + [hi]) == lo + 256 * Decode([hi]);
  }

  /** The boot block and the kernel have a loadable segment each. */
  predicate Loadable(files: seq<File>)
    requires |files| >= 2
  {
    && (exists j :: 0 <= j < |files[0].segs| && files[0].segs[j].load)
    && (exists j :: 0 <= j < |files[1].segs| && files[1].segs[j].load)
  }

  /** Swapping starts right behind the image exactly when that is fewer than 2^15 sectors long. */
  lemma SwapBehindImage(files: seq<File>)
    requires FilesOk(files) && NamesOk(files) && Loadable(files) && ImageBytes(files, |files|) < 0x8000_0000
    ensures var bytes := ImageBytes(files, |files|);
            var img, n := Finished(files, bytes), SectorsOf(bytes);
            && |img| >= IMAGE_SIZE_LOC + 2 && |img| <= SECTOR * n
            && (SwapStart(img) == n <==> n < 0x8000)
            && (n < 0x8000 ==> |img| <= SECTOR * SwapStart(img))
            && (n >= 0x8000 && n % 0x1_0000 < 0x8000 ==> SECTOR * SwapStart(img) < bytes)
  {
    hide Laid, Finished, NamesOk, ImageBytes, Encode, Decode, FileOk, Payload;
    var bytes := ImageBytes(files, |files|);
    CountedCovers(files, |files|);
    FinishedLength(files, bytes);
    HeaderFields(files, bytes);
    Low16(SectorsOf(bytes));
  }

  lemma FinishedLength(files: seq<File>, imageBytes: int)
    requires FilesOk(files) && NamesOk(files)
    ensures |Finished(files, imageBytes)| == |Laid(files, |files|)|
  {
    hide Laid, FilesOk, NamesOk, KernelBytes, EncodeInfos, Infos, Encode, Payload;
    InfosFill(files);
    ReservedAt(files);
    HeaderLength(files, imageBytes);
  }

  /** How many of the first n program headers are loadable. */
  function Loads(segs: seq<Segment>, n: nat): nat
    requires n <= |segs|
  {
    if n == 0 then 0 else Loads(segs, n - 1) + if segs[n - 1].load then 1 else 0
  }

  lemma {:induction false} CountedIs(f: File, room: int, n: nat)
    requires n <= |f.segs|
    ensures Counted(f, room, n) == if f.name == "main" then FileSize(f.segs, n) + Loads(f.segs, n) * room
                                   else if f.name == "bootblock" then SECTOR * Loads(f.segs, n) else FileSize(f.segs, n)
  {
    if n > 0 {
      CountedIs(f, room, n - 1);
      if f.segs[n - 1].load {
        Once(Loads(f.segs, n - 1), room);
      }
    }
  }

  lemma Once(n: int, room: int)
    ensures (n + 1) * room == n * room + room
  {
  }

  /** The count is the image's length, but for a sector too many for every further loadable segment of the boot block
      and the room for the records too often for every further one of the kernel. */
  lemma {:induction false} ImageBytesIs(files: seq<File>, n: nat)
    requires FilesOk(files) && 2 <= n <= |files|
    ensures ImageBytes(files, n) == |Laid(files, n)| + SECTOR * (Loads(files[0].segs, |files[0].segs|) - 1)
                                    + (Loads(files[1].segs, |files[1].segs|) - 1) * Room(files)
  {
    hide Body, FileSize, Counted, Loads;
    CountedIs(files[n - 1], Room(files), |files[n - 1].segs|);
    assert FileOk(files[n - 1]);
    BodyFits(files[n - 1].segs, |files[n - 1].segs|);
    if n == 2 {
      ReservedAt(files);
      CountedIs(files[0], Room(files), |files[0].segs|);
      Once(Loads(files[1].segs, |files[1].segs|) - 1, Room(files));
      assert ImageBytes(files, 1) == ImageBytes(files, 0) + Counted(files[0], Room(files), |files[0].segs|);
    } else {
      ImageBytesIs(files, n - 1);
    }
  }

  /** A boot sector and a kernel that together are 65536 sectors long. */
  function BigFiles(): seq<File> {
    [File("bootblock", 0, [Segment(true, [], 0)]),
     File("main", 0, [Segment(true, Zeros(0xFFFF * SECTOR), 0xFFFF * SECTOR)])]
  }

  /** Their header field is 0, so swapping would start at the boot sector. */
  lemma BigImageWraps()
    ensures var files := BigFiles();
            && FilesOk(files) && NamesOk(files) && Loadable(files) && ImageBytes(files, 2) == 0x1_0000 * SECTOR
            && |Finished(files, ImageBytes(files, 2))| >= IMAGE_SIZE_LOC + 2
            && SwapStart(Finished(files, ImageBytes(files, 2))) == 0
  {
    hide Finished, Encode, Decode;
    var files := BigFiles();
    assert files[0].segs[0].load && files[1].segs[0].load;
    assert Counted(files[0], 0, 1) == SECTOR + Counted(files[0], 0, 0);
    assert Counted(files[1], 0, 1) == 0xFFFF * SECTOR + Counted(files[1], 0, 0);
    assert ImageBytes(files, 1) == SECTOR + ImageBytes(files, 0);
    HeaderFields(files, ImageBytes(files, 2));
    Low16(SectorsOf(ImageBytes(files, 2)));
  }

  lemma {:induction false} CountedCovers(files: seq<File>, n: nat)
    requires FilesOk(files) && Loadable(files) && 2 <= n <= |files|
    ensures |Laid(files, n)| <= ImageBytes(files, n)
  {
    hide Body, FileSize;
    if n == 2 {
      ReservedAt(files);
      CountedAtLeast(files[0], Room(files), |files[0].segs|);
      CountedAtLeast(files[1], Room(files), |files[1].segs|);
      assert ImageBytes(files, 2) == ImageBytes(files, 1) + Counted(files[1], Room(files), |files[1].segs|);
      assert ImageBytes(files, 1) == ImageBytes(files, 0) + Counted(files[0], Room(files), |files[0].segs|);
    } else {
      CountedCovers(files, n - 1);
      CountedAtLeast(files[n - 1], Room(files), |files[n - 1].segs|);
    }
  }

  lemma {:induction false} CountedAtLeast(f: File, room: int, n: nat)
    requires FileOk(f) && room >= 0 && n <= |f.segs|
    ensures f.name != "bootblock" ==> Counted(f, room, n) >= |Body(f.segs, n)|
    ensures f.name == "main" && (exists j :: 0 <= j < n && f.segs[j].load) ==>
            Counted(f, room, n) >= |Body(f.segs, n)| + room
    ensures Counted(f, room, n) >= 0
    ensures f.name == "bootblock" && (exists j :: 0 <= j < n && f.segs[j].load) ==> Counted(f, room, n) >= SECTOR
  {
    if n > 0 {
      CountedAtLeast(f, room, n - 1);
      assert SegmentOk(f.segs[n - 1]);
    }
  }
}
