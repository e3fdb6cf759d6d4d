/**
  The names of the files the cache keeps in `tmp/`, and the startup sweep that recognises its own
  leftovers by name (tmp_sweep.rs:10-21, 113-173, 202-312).
*/
module TmpNames {
  import opened Common
  import opened Filesystem
  import opened KeyHash

  /** `TmpSweepKind` */
  datatype Kind =
    | FillBody | FillIdCounter | CommitMeta | MetadataTmp
    | PublishBackupBody | PublishBackupMeta | UploadSpool | ReadyzProbe

  // ---------- splitting ----------

  /** `str::strip_suffix` */
  function StripSuffix(s: string, suffix: string): (r: Option<string>)
    ensures r.Some? <==> EndsWith(s, suffix)
    ensures r.Some? ==> s == r.value + suffix
  {
    if EndsWith(s, suffix) then Some(s[..|s| - |suffix|]) else None
  }

  /** `str::split_once('-')` */
  function SplitOnce(s: string): (r: Option<(string, string)>)
    ensures r.None? <==> '-' !in s
    ensures r.Some? ==> s == r.value.0 + "-" + r.value.1 && '-' !in r.value.0
  {
    if s == "" then None
    else if s[0] == '-' then Some(("", s[1..]))
    else match SplitOnce(s[1..])
      case None => None
      case Some(p) => Some(([s[0]] + p.0, p.1))
  }

  /** `str::rsplit_once('-')` */
  function RSplitOnce(s: string): (r: Option<(string, string)>)
    ensures r.None? <==> '-' !in s
    ensures r.Some? ==> s == r.value.0 + "-" + r.value.1 && '-' !in r.value.1
  {
    if s == "" then None
    else
      var last := |s| - 1;
      if s[last] == '-' then Some((s[..last], ""))
      else match RSplitOnce(s[..last])
        case None => None
        case Some(p) => Some((p.0, p.1 + [s[last]]))
  }

  /** `str::split('-')` */
  function Split(s: string): (r: seq<string>)
    ensures |r| > 0
    decreases |s|
  {
    match SplitOnce(s)
    case None => [s]
    case Some(p) => [p.0] + Split(p.1)
  }

  lemma {:induction false} SplitOnceIs(a: string, b: string)
    requires '-' !in a
    ensures SplitOnce(a + "-" + b) == Some((a, b))
  {
    var s := a + "-" + b;
    if a == "" {
      assert s[1..] == b;
    } else {
      assert s[1..] == a[1..] + "-" + b;
      assert s[0] in a;
      SplitOnceIs(a[1..], b);
      assert [a[0]] + a[1..] == a;
    }
  }

  lemma {:induction false} RSplitOnceIs(a: string, b: string)
    requires '-' !in b
    ensures RSplitOnce(a + "-" + b) == Some((a, b))
    decreases |b|
  {
    var s := a + "-" + b;
    var last := |s| - 1;
    if b == "" {
      assert s[..last] == a;
    } else {
      var init := b[..|b| - 1];
      assert s[..last] == a + "-" + init;
      assert s[last] == b[|b| - 1] && s[last] in b;
      RSplitOnceIs(a, init);
      assert init + [b[|b| - 1]] == b;
    }
  }

  // ---------- the segment predicates ----------

  /** `is_ascii_digits` */
  predicate Digits(s: string) {
    s != "" && forall i :: 0 <= i < |s| ==> '0' <= s[i] <= '9'
  }

  /** `is_lowercase_hex_32` */
  predicate Hex32(s: string) {
    |s| == 32 && forall i :: 0 <= i < |s| ==> '0' <= s[i] <= '9' || 'a' <= s[i] <= 'f'
  }

  /** `is_two_digit_segments` */
  predicate TwoSegments(stem: string) {
    match SplitOnce(stem)
    case Some(p) => Digits(p.0) && Digits(p.1)
    case None => false
  }

  /** `is_three_digit_segments` */
  predicate ThreeSegments(stem: string) {
    var parts := Split(stem);
    |parts| == 3 && Digits(parts[0]) && Digits(parts[1]) && Digits(parts[2])
  }

  predicate HashSegments(stem: string) {
    match SplitOnce(stem)
    case None => false
    case Some(p) =>
      match RSplitOnce(p.1)
      case None => false
      case Some(q) => Digits(p.0) && Hex32(q.0) && Digits(q.1)
  }

  // ---------- recognising a name ----------

  /** `classify` */
  function Classify(name: string): Option<Kind> {
    if name == ".readyz-probe" then Some(ReadyzProbe)
    else if EndsWith(name, ".prev.body") then Check(TwoSegments(Stem(name, ".prev.body")), PublishBackupBody)
    else if EndsWith(name, ".prev.meta.json") then Check(TwoSegments(Stem(name, ".prev.meta.json")), PublishBackupMeta)
    else if EndsWith(name, ".fill_id_counter.tmp") then Check(TwoSegments(Stem(name, ".fill_id_counter.tmp")), FillIdCounter)
    else if EndsWith(name, ".upload-spool.tmp") then Check(TwoSegments(Stem(name, ".upload-spool.tmp")), UploadSpool)
    else if EndsWith(name, ".meta.tmp") then Check(HashSegments(Stem(name, ".meta.tmp")), MetadataTmp)
    else if EndsWith(name, ".meta.json") then Check(TwoSegments(Stem(name, ".meta.json")), CommitMeta)
    else if EndsWith(name, ".body") then Check(ThreeSegments(Stem(name, ".body")), FillBody)
    else None
  }

  function Check(ok: bool, k: Kind): Option<Kind> {
    if ok then Some(k) else None
  }

  function Stem(name: string, suffix: string): string
    requires EndsWith(name, suffix)
  {
    StripSuffix(name, suffix).value
  }

  // ---------- the writers ----------

  /** What a writer puts into the name: process ids, counters, a key's hash. */
  datatype Parts = Parts(pid: string, middle: string, counter: string)

  /** The name each writer gives its file (disk.rs:430, 1145-1150, 1218, 1360-1361, 1841-1846; get.rs; aws_chunked.rs:74). */
  function NameOf(k: Kind, p: Parts): string {
    match k
    case FillBody => p.pid + "-" + (p.middle + "-" + p.counter) + ".body"
    case FillIdCounter => p.pid + "-" + p.counter + ".fill_id_counter.tmp"
    case CommitMeta => p.pid + "-" + p.counter + ".meta.json"
    case MetadataTmp => p.pid + "-" + (p.middle + "-" + p.counter) + ".meta.tmp"
    case PublishBackupBody => p.pid + "-" + p.counter + ".prev.body"
    case PublishBackupMeta => p.pid + "-" + p.counter + ".prev.meta.json"
    case UploadSpool => p.pid + "-" + p.counter + ".upload-spool.tmp"
    case ReadyzProbe => ".readyz-probe"
  }

  /** The shape the sweep asks for. */
  predicate Shaped(k: Kind, p: Parts) {
    match k
    case ReadyzProbe => true
    case FillBody => Digits(p.pid) && Digits(p.middle) && Digits(p.counter)
    case MetadataTmp => Digits(p.pid) && Hex32(p.middle) && Digits(p.counter)
    case _ => Digits(p.pid) && Digits(p.counter)
  }

  /** How a number is formatted: no leading zero. */
  predicate Numeral(s: string) {
    Digits(s) && (s[0] == '0' ==> s == "0")
  }

  /** What a writer puts in: formatted numbers, and for a fill's body its own process id twice, the second time as part of the request id. */
  predicate Written(k: Kind, p: Parts) {
    Shaped(k, p) && (k.ReadyzProbe? || (Numeral(p.pid) && Numeral(p.counter) && (k.FillBody? ==> p.middle == p.pid)))
  }

  function SuffixOf(k: Kind): string {
    match k
    case FillBody => ".body"
    case FillIdCounter => ".fill_id_counter.tmp"
    case CommitMeta => ".meta.json"
    case MetadataTmp => ".meta.tmp"
    case PublishBackupBody => ".prev.body"
    case PublishBackupMeta => ".prev.meta.json"
    case UploadSpool => ".upload-spool.tmp"
    case ReadyzProbe => ".readyz-probe"
  }

  // ---------- round trip ----------

  lemma TwoBack(a: string, b: string)
    requires Digits(a) && Digits(b)
    ensures TwoSegments(a + "-" + b)
  {
    SplitOnceIs(a, b);
  }

  lemma ThreeBack(a: string, b: string, c: string)
    requires Digits(a) && Digits(b) && Digits(c)
    ensures ThreeSegments(a + "-" + (b + "-" + c))
  {
    SplitOnceIs(a, b + "-" + c);
    SplitOnceIs(b, c);
    assert Split(b + "-" + c) == [b] + Split(c);
    assert Split(c) == [c];
    assert Split(a + "-" + (b + "-" + c)) == [a, b, c];
  }

  lemma HashBack(a: string, h: string, c: string)
    requires Digits(a) && Hex32(h) && Digits(c)
    ensures HashSegments(a + "-" + (h + "-" + c))
  {
    SplitOnceIs(a, h + "-" + c);
    RSplitOnceIs(h, c);
  }

  /** A name with a digit before its suffix does not end in another suffix whose last letter, or whose letter in the digit's place, is wrong. */
  lemma OtherSuffix(stem: string, suffix: string, other: string)
    requires stem != "" && '0' <= stem[|stem| - 1] <= '9' && suffix != "" && other != ""
    requires other[|other| - 1] != suffix[|suffix| - 1]
             || (|other| > |suffix| && !('0' <= other[|other| - |suffix| - 1] <= '9'))
    ensures !EndsWith(stem + suffix, other)
  {
    var s := stem + suffix;
    assert s[|s| - 1] == suffix[|suffix| - 1] && s[|stem| - 1] == stem[|stem| - 1];
    LetterAt(s, other, |other| - 1);
    if |other| > |suffix| { LetterAt(s, other, |other| - |suffix| - 1); }
  }

  lemma StemBack(stem: string, suffix: string)
    ensures EndsWith(stem + suffix, suffix) && Stem(stem + suffix, suffix) == stem
  {
    assert (stem + suffix)[..|stem|] == stem;
  }

  predicate StemFits(k: Kind, stem: string) {
    if k.FillBody? then ThreeSegments(stem) else if k.MetadataTmp? then HashSegments(stem) else TwoSegments(stem)
  }

  lemma ClassifyLong(k: Kind, stem: string)
    requires k.PublishBackupBody? || k.PublishBackupMeta? || k.FillIdCounter? || k.UploadSpool?
    requires stem != "" && '0' <= stem[|stem| - 1] <= '9'
    ensures Classify(stem + SuffixOf(k)) == Check(StemFits(k, stem), k)
  {
    StemBack(stem, SuffixOf(k));
    OtherSuffix(stem, SuffixOf(k), ".readyz-probe");
    match k {
      case PublishBackupBody =>
      case PublishBackupMeta =>
        OtherSuffix(stem, SuffixOf(k), ".prev.body");
      case FillIdCounter =>
        OtherSuffix(stem, SuffixOf(k), ".prev.body");
        OtherSuffix(stem, SuffixOf(k), ".prev.meta.json");
      case UploadSpool =>
        OtherSuffix(stem, SuffixOf(k), ".prev.body");
        OtherSuffix(stem, SuffixOf(k), ".prev.meta.json");
        OtherSuffix(stem, SuffixOf(k), ".fill_id_counter.tmp");
    }
  }

  /** None of the first four suffixes. */
  lemma NotLong(stem: string, suffix: string)
    requires suffix == ".meta.tmp" || suffix == ".meta.json" || suffix == ".body"
    requires stem != "" && '0' <= stem[|stem| - 1] <= '9'
    ensures stem + suffix != ".readyz-probe"
    ensures !EndsWith(stem + suffix, ".prev.body") && !EndsWith(stem + suffix, ".prev.meta.json")
    ensures !EndsWith(stem + suffix, ".fill_id_counter.tmp") && !EndsWith(stem + suffix, ".upload-spool.tmp")
  {
    OtherSuffix(stem, suffix, ".readyz-probe");
    OtherSuffix(stem, suffix, ".prev.body");
    OtherSuffix(stem, suffix, ".prev.meta.json");
    OtherSuffix(stem, suffix, ".fill_id_counter.tmp");
    OtherSuffix(stem, suffix, ".upload-spool.tmp");
  }

  lemma ClassifyShort(k: Kind, stem: string)
    requires k.MetadataTmp? || k.CommitMeta? || k.FillBody?
    requires stem != "" && '0' <= stem[|stem| - 1] <= '9'
    ensures Classify(stem + SuffixOf(k)) == Check(StemFits(k, stem), k)
  {
    StemBack(stem, SuffixOf(k));
    NotLong(stem, SuffixOf(k));
    match k {
      case MetadataTmp =>
      case CommitMeta =>
        OtherSuffix(stem, SuffixOf(k), ".meta.tmp");
      case FillBody =>
        OtherSuffix(stem, SuffixOf(k), ".meta.tmp");
        OtherSuffix(stem, SuffixOf(k), ".meta.json");
    }
  }

  /** A stem that ends in a digit, with one of the suffixes, is only ever checked against its own kind. */
  lemma ClassifyStem(k: Kind, stem: string)
    requires !k.ReadyzProbe? && stem != "" && '0' <= stem[|stem| - 1] <= '9'
    ensures Classify(stem + SuffixOf(k)) == Check(StemFits(k, stem), k)
  {
    if k.MetadataTmp? || k.CommitMeta? || k.FillBody? {
      ClassifyShort(k, stem);
    } else {
      ClassifyLong(k, stem);
    }
  }

  lemma ShapedIsRecognised(k: Kind, p: Parts)
    requires Shaped(k, p)
    ensures Classify(NameOf(k, p)) == Some(k)
  {
    if !k.ReadyzProbe? {
      var stem := if k.FillBody? || k.MetadataTmp? then p.pid + "-" + (p.middle + "-" + p.counter) else p.pid + "-" + p.counter;
      assert stem[|stem| - 1] == p.counter[|p.counter| - 1];
      ClassifyStem(k, stem);
      match k {
        case FillBody => ThreeBack(p.pid, p.middle, p.counter);
        case MetadataTmp => HashBack(p.pid, p.middle, p.counter);
        case _ => TwoBack(p.pid, p.counter);
      }
    }
  }

  /** Every name a writer gives is classified as that writer's. */
  lemma WrittenIsRecognised(k: Kind, p: Parts)
    requires Written(k, p)
    ensures Classify(NameOf(k, p)) == Some(k)
  {
    ShapedIsRecognised(k, p);
  }

  lemma ClassifiedStem(name: string, k: Kind)
    requires Classify(name) == Some(k) && !k.ReadyzProbe?
    ensures EndsWith(name, SuffixOf(k)) && StemFits(k, Stem(name, SuffixOf(k)))
  {
    match k {
      case PublishBackupBody => assert EndsWith(name, ".prev.body");
      case PublishBackupMeta => assert EndsWith(name, ".prev.meta.json");
      case FillIdCounter => assert EndsWith(name, ".fill_id_counter.tmp");
      case UploadSpool => assert EndsWith(name, ".upload-spool.tmp");
      case MetadataTmp => assert EndsWith(name, ".meta.tmp");
      case CommitMeta => assert EndsWith(name, ".meta.json");
      case FillBody => assert EndsWith(name, ".body");
    }
  }

  /** The segments of a classified name. */
  function Parse(k: Kind, name: string): (p: Parts)
    requires Classify(name) == Some(k)
    ensures Shaped(k, p) && name == NameOf(k, p)
  {
    if k.ReadyzProbe? then Parts("", "", "")
    else
      ClassifiedStem(name, k);
      ParseStem(k, Stem(name, SuffixOf(k)))
  }

  function ParseStem(k: Kind, stem: string): (p: Parts)
    requires !k.ReadyzProbe? && StemFits(k, stem)
    ensures Shaped(k, p) && NameOf(k, p) == stem + SuffixOf(k)
  {
    var first := SplitOnce(stem).value;
    match k
    case FillBody =>
      assert Split(first.1) == Split(stem)[1..];
      var second := SplitOnce(first.1).value;
      assert Split(second.1) == Split(stem)[2..];
      Parts(first.0, second.0, second.1)
    case MetadataTmp =>
      var second := RSplitOnce(first.1).value;
      Parts(first.0, second.0, second.1)
    case _ => Parts(first.0, "", first.1)
  }

  /** The segments are told apart in only one way. */
  lemma ParseBack(k: Kind, p: Parts)
    requires Shaped(k, p)
    ensures Classify(NameOf(k, p)) == Some(k)
    ensures !k.ReadyzProbe? ==>
              var q := Parse(k, NameOf(k, p));
              q.pid == p.pid && q.counter == p.counter && (k.FillBody? || k.MetadataTmp? ==> q.middle == p.middle)
  {
    ShapedIsRecognised(k, p);
    if !k.ReadyzProbe? {
      var stem := if k.FillBody? || k.MetadataTmp? then p.pid + "-" + (p.middle + "-" + p.counter) else p.pid + "-" + p.counter;
      StemBack(stem, SuffixOf(k));
      match k {
        case FillBody =>
          SplitOnceIs(p.pid, p.middle + "-" + p.counter);
          SplitOnceIs(p.middle, p.counter);
        case MetadataTmp =>
          SplitOnceIs(p.pid, p.middle + "-" + p.counter);
          RSplitOnceIs(p.middle, p.counter);
        case _ => SplitOnceIs(p.pid, p.counter);
      }
    }
  }

  /** The sweep recognises exactly the shapes. */
  lemma RecognisedIff(name: string, k: Kind)
    ensures Classify(name) == Some(k) <==> exists p :: Shaped(k, p) && name == NameOf(k, p)
  {
    if Classify(name) == Some(k) {
      assert Shaped(k, Parse(k, name)) && name == NameOf(k, Parse(k, name));
    }
    if p :| Shaped(k, p) && name == NameOf(k, p) { ShapedIsRecognised(k, p); }
  }

  /**
    Not every recognised name is one a writer gives: that takes numbers without leading zeros, and
    for a fill's body the same process id twice. So the sweep can also take a stranger's file, of
    exactly the other names of these shapes.
  */
  lemma RecognisedIsWrittenIff(name: string, k: Kind)
    requires Classify(name) == Some(k) && !k.ReadyzProbe?
    ensures var q := Parse(k, name);
            (exists p :: Written(k, p) && name == NameOf(k, p))
            <==> Numeral(q.pid) && Numeral(q.counter) && (k.FillBody? ==> q.middle == q.pid)
  {
    if p :| Written(k, p) && name == NameOf(k, p) { ParseBack(k, p); }
    var q := Parse(k, name);
    if Numeral(q.pid) && Numeral(q.counter) && (k.FillBody? ==> q.middle == q.pid) {
      assert Written(k, q) && name == NameOf(k, q);
    }
  }

  /** No name belongs to two writers, although some suffixes end in others. */
  lemma OneWriterPerName(k: Kind, p: Parts, k': Kind, p': Parts)
    requires Written(k, p) && Written(k', p') && NameOf(k, p) == NameOf(k', p')
    ensures k == k'
  {
    WrittenIsRecognised(k, p);
    WrittenIsRecognised(k', p');
  }

  // ---------- the names in numbers ----------

  /** `{}` of an unsigned integer */
  function Decimal(n: nat): (s: string)
    ensures s != ""
  {
    if n < 10 then [Nibble(n)] else Decimal(n / 10) + [Nibble(n % 10)]
  }

  function Value(s: string): nat
    requires Digits(s)
  {
    var last := s[|s| - 1] as nat - '0' as nat;
    if |s| == 1 then last else 10 * Value(s[..|s| - 1]) + last
  }

  lemma {:induction false} DecimalIsNumeral(n: nat)
    ensures Numeral(Decimal(n)) && (Decimal(n)[0] == '0' <==> n == 0)
  {
    if n >= 10 { DecimalIsNumeral(n / 10); }
  }

  lemma {:induction false} NumeralIsDecimal(s: string)
    requires Numeral(s)
    ensures s == Decimal(Value(s)) && (Value(s) == 0 <==> s == "0")
  {
    if |s| > 1 {
      var init := s[..|s| - 1];
      NumeralIsDecimal(init);
      assert s == init + [s[|s| - 1]];
      assert Value(s) / 10 == Value(init) && Value(s) >= 10;
    }
  }

  /** The numerals are exactly the formatted numbers. */
  lemma NumeralIff(s: string)
    ensures Numeral(s) <==> exists n: nat :: s == Decimal(n)
  {
    if Numeral(s) { NumeralIsDecimal(s); }
    if n: nat :| s == Decimal(n) { DecimalIsNumeral(n); }
  }

  /** The name each writer gives, from its process id, the key and its counter. */
  function WriterName(k: Kind, pid: nat, key: Digest, counter: nat): string {
    NameOf(k, Parts(Decimal(pid), if k.MetadataTmp? then HashHex(key) else Decimal(pid), Decimal(counter)))
  }

  /** Whatever the process, the key and the counter are, the sweep knows each writer's files. */
  lemma WriterNamesAreRecognised(k: Kind, pid: nat, key: Digest, counter: nat)
    ensures Classify(WriterName(k, pid, key, counter)) == Some(k)
  {
    DecimalIsNumeral(pid);
    DecimalIsNumeral(counter);
    HexLetters(key);
    WrittenIsRecognised(k, Parts(Decimal(pid), if k.MetadataTmp? then HashHex(key) else Decimal(pid), Decimal(counter)));
  }

  // ---------- the sweep ----------

  datatype Entry = Regular(size: nat) | Symlink | OtherEntry

  type Entries = map<Name, Entry>

  function SizeOf(e: Entry): nat {
    if e.Regular? then e.size else 0
  }

  ghost function Bytes(es: Entries): nat
    decreases es.Keys
  {
    if es == map[] then 0 else
      var n :| n in es;
      SizeOf(es[n]) + Bytes(es - {n})
  }

  lemma {:induction false} BytesWithout(es: Entries, n: Name)
    requires n in es
    ensures Bytes(es) == SizeOf(es[n]) + Bytes(es - {n})
    decreases es.Keys
  {
    var m :| m in es && Bytes(es) == SizeOf(es[m]) + Bytes(es - {m});
    if m != n {
      BytesWithout(es - {m}, n);
      BytesWithout(es - {n}, m);
      assert es - {m} - {n} == es - {n} - {m};
    }
  }

  /** `TmpSweepSkipReason` and `TmpSweepFailureReason` */
  datatype SkipReason = UnknownPattern | NonUtf8 | IsSymlink | NonRegular
  datatype FailureReason = ReadDir | ReadEntry | Metadata | RemoveFile

  /** What a sweep does with one entry; the counters it publishes carry these labels. */
  datatype Verdict = Removed(kind: Kind) | Skipped(why: SkipReason) | Faulted(reason: FailureReason)

  /** What a sweep does with an entry when nothing fails: takes a regular file with a recognised name. */
  function Judge(n: Name, e: Entry): (v: Verdict)
    ensures !v.Faulted?
    ensures v.Removed? <==> e.Regular? && n.Utf8? && Classify(n.text).Some?
    ensures v.Removed? ==> Classify(n.text) == Some(v.kind)
    ensures v == Skipped(IsSymlink) <==> e.Symlink?
    ensures v == Skipped(NonRegular) <==> !e.Symlink? && !e.Regular?
    ensures v == Skipped(NonUtf8) <==> e.Regular? && n.Raw?
  {
    if e.Symlink? then Skipped(IsSymlink)
    else if !e.Regular? then Skipped(NonRegular)
    else match n
      case Raw(_) => Skipped(NonUtf8)
      case Utf8(text) => match Classify(text) case Some(k) => Removed(k) case None => Skipped(UnknownPattern)
  }

  type Verdicts = map<Name, Verdict>

  /** How many entries met this verdict. */
  function With(vs: Verdicts, v: Verdict): set<Name> {
    set n | n in vs && vs[n] == v
  }

  function CountOf(vs: Verdicts, v: Verdict): nat {
    |With(vs, v)|
  }

  lemma CountOneMore(vs: Verdicts, n: Name, v: Verdict, w: Verdict)
    requires n !in vs
    ensures CountOf(vs[n := v], w) == CountOf(vs, w) + if v == w then 1 else 0
  {
    assert With(vs[n := v], w) == With(vs, w) + if v == w then {n} else {};
  }

  lemma CountsStep(counts: multiset<Verdict>, vs: Verdicts, n: Name, v: Verdict)
    requires (forall w :: counts[w] == CountOf(vs, w)) && n !in vs
    ensures forall w :: (counts + multiset{v})[w] == CountOf(vs[n := v], w)
  {
    forall w ensures (counts + multiset{v})[w] == CountOf(vs[n := v], w) { CountOneMore(vs, n, v, w); }
  }

  /** The counters of a sweep, by label, and the bytes it removed. */
  datatype Sums = Sums(counts: multiset<Verdict>, removedBytes: nat)

  /** The counters are the verdicts, which give every entry its own, or a failure in its place. */
  ghost predicate Accounts(r: Sums, vs: Verdicts, judge: (Name, Entry) -> Verdict, before: Entries, after: Entries) {
    && vs.Keys <= before.Keys
    && (forall n :: n in vs ==> vs[n] == judge(n, before[n]) || vs[n].Faulted?)
    && (forall n :: n in after <==> n in before && !(n in vs && vs[n].Removed?))
    && (forall n :: n in after ==> after[n] == before[n])
    && (forall v :: r.counts[v] == CountOf(vs, v))
    && Bytes(after) + r.removedBytes == Bytes(before)
  }

  lemma AccountsStep(r: Sums, vs: Verdicts, judge: (Name, Entry) -> Verdict, before: Entries, after: Entries, after': Entries,
                     n: Name, v: Verdict, taken: nat)
    requires Accounts(r, vs, judge, before, after) && n in after && n !in vs
    requires v == judge(n, after[n]) || v.Faulted?
    requires after' == if v.Removed? then after - {n} else after
    requires Bytes(after') + taken == Bytes(after)
    ensures Accounts(Sums(r.counts + multiset{v}, r.removedBytes + taken), vs[n := v], judge, before, after')
  {
    CountsStep(r.counts, vs, n, v);
  }

  /** In the middle of a sweep: what is left has no verdict yet. */
  ghost predicate Sweeping(r: Sums, vs: Verdicts, judge: (Name, Entry) -> Verdict, before: Entries, after: Entries, left: set<Name>) {
    && Accounts(r, vs, judge, before, after) && r.counts[Faulted(ReadDir)] == 0
    && left <= after.Keys && left !! vs.Keys && vs.Keys + left == before.Keys
  }

  lemma SweepBegins(judge: (Name, Entry) -> Verdict, es: Entries)
    ensures Sweeping(Sums(multiset{}, 0), map[], judge, es, es, es.Keys)
  {
    forall v ensures CountOf(map[], v) == 0 { assert With(map[], v) == {}; }
  }

  lemma SweepGoesOn(r: Sums, vs: Verdicts, judge: (Name, Entry) -> Verdict, before: Entries, after: Entries, left: set<Name>,
                    after': Entries, n: Name, v: Verdict, taken: nat)
    requires Sweeping(r, vs, judge, before, after, left) && n in left && v != Faulted(ReadDir)
    requires v == judge(n, after[n]) || v.Faulted?
    requires after' == if v.Removed? then after - {n} else after
    requires Bytes(after') + taken == Bytes(after)
    ensures Sweeping(Sums(r.counts + multiset{v}, r.removedBytes + taken), vs[n := v], judge, before, after', left - {n})
  {
    AccountsStep(r, vs, judge, before, after, after', n, v, taken);
  }

  class TmpDir {
    var entries: Entries

    constructor (entries: Entries)
      ensures this.entries == entries
    {
      this.entries := entries;
    }

    /** Whether the next file operation fails. */
    method Fails() returns (r: bool) {
      r := *;
    }

    /**
      `sweep_tmp_dir`: takes files with a recognised name and nothing else, gives every entry its
      verdict or a failure, and counts the verdicts under their labels and the bytes it took.
    */
    method Sweep() returns (r: Sums, ghost vs: Verdicts)
      modifies this
      ensures r.counts[Faulted(ReadDir)] > 0 ==> entries == old(entries) && r == Sums(multiset{Faulted(ReadDir)}, 0)
      ensures r.counts[Faulted(ReadDir)] == 0 ==> vs.Keys == old(entries).Keys && Accounts(r, vs, Judge, old(entries), entries)
    {
      r, vs := SweepBy(Judge);
    }

    /** The loop, for any way of judging entries. */
    method SweepBy(judge: (Name, Entry) -> Verdict) returns (r: Sums, ghost vs: Verdicts)
      requires forall n, e :: !judge(n, e).Faulted?
      modifies this
      ensures r.counts[Faulted(ReadDir)] > 0 ==> entries == old(entries) && r == Sums(multiset{Faulted(ReadDir)}, 0)
      ensures r.counts[Faulted(ReadDir)] == 0 ==> vs.Keys == old(entries).Keys && Accounts(r, vs, judge, old(entries), entries)
    {
      r, vs := Sums(multiset{}, 0), map[];
      var fails := Fails();
      if fails { return Sums(multiset{Faulted(ReadDir)}, 0), vs; }
      ghost var before := entries;
      SweepBegins(judge, entries);
      var left := entries.Keys;
      while left != {}
        invariant Sweeping(r, vs, judge, before, entries, left)
        decreases left
      {
        var name :| name in left;
        ghost var after := entries;
        var verdict, taken := SweepOne(name, judge);
        SweepGoesOn(r, vs, judge, before, after, left, entries, name, verdict, taken);
        left := left - {name};
        vs := vs[name := verdict];
        r := Sums(r.counts + multiset{verdict}, r.removedBytes + taken);
      }
    }

    /** One entry: it cannot be read, or its metadata cannot, or it is judged and perhaps removed. */
    method SweepOne(name: Name, judge: (Name, Entry) -> Verdict) returns (verdict: Verdict, taken: nat)
      requires name in entries && !judge(name, entries[name]).Faulted?
      modifies this
      ensures verdict != Faulted(ReadDir) && (verdict == judge(name, old(entries)[name]) || verdict.Faulted?)
      ensures entries == if verdict.Removed? then old(entries) - {name} else old(entries)
      ensures Bytes(entries) + taken == Bytes(old(entries))
    {
      taken := 0;
      var fails := Fails();
      if fails { return Faulted(ReadEntry), 0; }
      fails := Fails();
      if fails { return Faulted(Metadata), 0; }
      verdict := judge(name, entries[name]);
      if verdict.Removed? {
        fails := Fails();
        if fails { return Faulted(RemoveFile), 0; }
        BytesWithout(entries, name);
        taken := SizeOf(entries[name]);
        entries := entries - {name};
      }
    }
  }
}
