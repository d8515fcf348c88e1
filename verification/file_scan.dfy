/**
 * The file-scan descriptor of the plan DSL: which physical format a scan reads, with its
 * per-format options, optional cloud options and, for Parquet and IPC, an optional cached
 * file metadata blob. The equality used for plan caching deliberately ignores that
 * metadata, and the hash agrees with it.
 */
module FileScanDsl {
  import opened Wrappers

  // The option and metadata payloads are opaque here: only their equality matters.
  type CsvReadOptions(==)
  type NDJsonReadOptions(==)
  type ParquetOptions(==)
  type IpcScanOptions(==)
  type CloudOptions(==)
  type FileMetadataRef(==)
  type IpcFileMetadata(==)
  type AnonymousScanOptions(==)
  /** The user-supplied `Arc<dyn AnonymousScan>`. */
  type AnonymousScan(==)
  type RowIndex(==)

  /** The `ScanFlags` bit set, a `u32`. */
  type ScanFlags = bv32

  const EMPTY_FLAGS: ScanFlags := 0
  const SPECIALIZED_PREDICATE_FILTER: ScanFlags := 0x01

  /** The part of `FileScanOptions` that `sort_projection` consults. */
  datatype FileScanOptions = FileScanOptions(rowIndex: Option<RowIndex>)

  /** `FileScan`, with every format feature enabled. */
  datatype FileScan =
    | Csv(csvOptions: CsvReadOptions, cloudOptions: Option<CloudOptions>)
    | NDJson(ndjsonOptions: NDJsonReadOptions, cloudOptions: Option<CloudOptions>)
    | Parquet(parquetOptions: ParquetOptions, cloudOptions: Option<CloudOptions>,
              parquetMetadata: Option<FileMetadataRef>)
    | Ipc(ipcOptions: IpcScanOptions, cloudOptions: Option<CloudOptions>,
          ipcMetadata: Option<IpcFileMetadata>)
    | Anonymous(anonymousOptions: AnonymousScanOptions, scanFunction: AnonymousScan)

  /** `std::mem::discriminant`: the variant's position in the declaration. */
  function Discriminant(s: FileScan): (d: nat)
    ensures d < 5
  {
    match s
    case Csv(_, _) => 0
    case NDJson(_, _) => 1
    case Parquet(_, _, _) => 2
    case Ipc(_, _, _) => 3
    case Anonymous(_, _) => 4
  }

  /** No cached metadata is held (trivially so for the variants that have none). */
  predicate HasNoMetadata(s: FileScan)
  {
    match s
    case Parquet(_, _, metadata) => metadata.None?
    case Ipc(_, _, metadata) => metadata.None?
    case _ => true
  }

  /** `remove_metadata`: the in-place `*metadata = None`, as the updated value. */
  function RemoveMetadata(s: FileScan): (t: FileScan)
    ensures HasNoMetadata(t)
    ensures Discriminant(t) == Discriminant(s)
    ensures s.Parquet? ==> t == Parquet(s.parquetOptions, s.cloudOptions, None)
    ensures s.Ipc? ==> t == Ipc(s.ipcOptions, s.cloudOptions, None)
    ensures !s.Parquet? && !s.Ipc? ==> t == s
  {
    match s
    case Parquet(_, _, _) => s.(parquetMetadata := None)
    case Ipc(_, _, _) => s.(ipcMetadata := None)
    case _ => s
  }

  /**
   * The hand-written `PartialEq::eq`. Equal values are of the same variant and agree on
   * options and cloud options; metadata is ignored, and no arm matches `Anonymous`, so an
   * `Anonymous` scan is unequal even to itself.
   */
  function Eq(l: FileScan, r: FileScan): (equal: bool)
    ensures equal ==> Discriminant(l) == Discriminant(r)
    ensures equal ==> !l.Anonymous? && !r.Anonymous?
    ensures equal <==> !l.Anonymous? && RemoveMetadata(l) == RemoveMetadata(r)
  {
    match (l, r)
    case (Csv(lo, lc), Csv(ro, rc)) => lo == ro && lc == rc
    case (Parquet(lo, lc, _), Parquet(ro, rc, _)) => lo == ro && lc == rc
    case (Ipc(lo, lc, _), Ipc(ro, rc, _)) => lo == ro && lc == rc
    case (NDJson(lo, lc), NDJson(ro, rc)) => lo == ro && lc == rc
    case _ => false
  }

  /** One component fed to the `Hasher`. */
  datatype HashItem =
    | VariantTag(discriminant: nat)
    | CsvOptionsItem(csv: CsvReadOptions)
    | NDJsonOptionsItem(ndjson: NDJsonReadOptions)
    | ParquetOptionsItem(parquet: ParquetOptions)
    | IpcOptionsItem(ipc: IpcScanOptions)
    | AnonymousOptionsItem(anonymous: AnonymousScanOptions)
    | CloudOptionsItem(cloud: Option<CloudOptions>)

  /**
   * `Hash::hash`, as the sequence of components it feeds to the hasher: the discriminant
   * first, then the options and (except for `Anonymous`) the cloud options.
   */
  function HashInput(s: FileScan): (items: seq<HashItem>)
    ensures |items| == if s.Anonymous? then 2 else 3
    ensures items[0] == VariantTag(Discriminant(s))
    ensures s.Csv? ==> items[1] == CsvOptionsItem(s.csvOptions)
    ensures s.NDJson? ==> items[1] == NDJsonOptionsItem(s.ndjsonOptions)
    ensures s.Parquet? ==> items[1] == ParquetOptionsItem(s.parquetOptions)
    ensures s.Ipc? ==> items[1] == IpcOptionsItem(s.ipcOptions)
    ensures s.Anonymous? ==> items[1] == AnonymousOptionsItem(s.anonymousOptions)
    ensures !s.Anonymous? ==> items[2] == CloudOptionsItem(s.cloudOptions)
    ensures forall i :: 0 <= i < |items| ==> !items[i].VariantTag? <==> i != 0
  {
    var tag := VariantTag(Discriminant(s));
    match s
    case Csv(options, cloud) => [tag, CsvOptionsItem(options), CloudOptionsItem(cloud)]
    case Parquet(options, cloud, _) => [tag, ParquetOptionsItem(options), CloudOptionsItem(cloud)]
    case Ipc(options, cloud, _) => [tag, IpcOptionsItem(options), CloudOptionsItem(cloud)]
    case NDJson(options, cloud) => [tag, NDJsonOptionsItem(options), CloudOptionsItem(cloud)]
    case Anonymous(options, _) => [tag, AnonymousOptionsItem(options)]
  }

  /** `flags`: only Parquet filters predicates itself. */
  function Flags(s: FileScan): (flags: ScanFlags)
    ensures (flags & SPECIALIZED_PREDICATE_FILTER != 0) <==> s.Parquet?
    ensures flags & !SPECIALIZED_PREDICATE_FILTER == 0
  {
    match s
    case Parquet(_, _, _) => SPECIALIZED_PREDICATE_FILTER
    case _ => EMPTY_FLAGS
  }

  /** `sort_projection`: whether the projection must be re-sorted after reading. */
  function SortProjection(s: FileScan, fileOptions: FileScanOptions): (sort: bool)
    ensures sort <==> s.Csv? || (s.Ipc? && fileOptions.rowIndex.Some?)
  {
    match s
    case Csv(_, _) => true
    case Ipc(_, _, _) => fileOptions.rowIndex.Some?
    case Parquet(_, _, _) => false
    case _ => false
  }

  /** `streamable`: whether the format supports the streaming engine. */
  function Streamable(s: FileScan): (streamable: bool)
    ensures streamable <==> s.Csv? || s.Parquet?
  {
    match s
    case Csv(_, _) => true
    case Ipc(_, _, _) => false
    case Parquet(_, _, _) => true
    case NDJson(_, _) => false
    case _ => false
  }

  // ---------------------------------------------------------------------------------------
  // Properties relating equality, hashing, metadata removal and the capability queries.

  /** `Eq` is reflexive exactly on the non-`Anonymous` values, though the type claims `Eq`. */
  lemma EqReflexiveExceptAnonymous(s: FileScan)
    ensures Eq(s, s) <==> !s.Anonymous?
  {
  }

  lemma EqSymmetric(a: FileScan, b: FileScan)
    ensures Eq(a, b) <==> Eq(b, a)
  {
  }

  lemma EqTransitive(a: FileScan, b: FileScan, c: FileScan)
    requires Eq(a, b) && Eq(b, c)
    ensures Eq(a, c)
  {
  }

  /** Two Parquet, or two IPC, scans that differ only in their cached metadata are equal. */
  lemma EqIgnoresMetadata(
    parquetOptions: ParquetOptions, ipcOptions: IpcScanOptions, cloud: Option<CloudOptions>,
    parquet1: Option<FileMetadataRef>, parquet2: Option<FileMetadataRef>,
    ipc1: Option<IpcFileMetadata>, ipc2: Option<IpcFileMetadata>)
    ensures Eq(Parquet(parquetOptions, cloud, parquet1), Parquet(parquetOptions, cloud, parquet2))
    ensures Eq(Ipc(ipcOptions, cloud, ipc1), Ipc(ipcOptions, cloud, ipc2))
  {
  }

  /** Removing the metadata keeps a scan equal to its original. */
  lemma RemoveMetadataKeepsEq(s: FileScan)
    requires !s.Anonymous?
    ensures Eq(s, RemoveMetadata(s)) && Eq(RemoveMetadata(s), s)
  {
  }

  /** Hash is consistent with `eq`: equal values feed the hasher the same components. */
  lemma HashConsistentWithEq(a: FileScan, b: FileScan)
    requires Eq(a, b)
    ensures HashInput(a) == HashInput(b)
  {
  }

  /** Conversely, for non-`Anonymous` values the hash input determines equality. */
  lemma EqFromHashInput(a: FileScan, b: FileScan)
    requires !a.Anonymous? && HashInput(a) == HashInput(b)
    ensures Eq(a, b)
  {
  }

  /**
   * Two scans feed the hasher the same components exactly when they are equal, or both are
   * `Anonymous` with the same options: the scan function of an `Anonymous` scan is not hashed.
   */
  lemma HashInputDeterminedBy(a: FileScan, b: FileScan)
    ensures HashInput(a) == HashInput(b) <==>
      Eq(a, b) || (a.Anonymous? && b.Anonymous? && a.anonymousOptions == b.anonymousOptions)
  {
  }

  /** Different variants have different discriminants. */
  lemma DiscriminantIdentifiesVariant(a: FileScan, b: FileScan)
    ensures Discriminant(a) == Discriminant(b) <==>
      (a.Csv? && b.Csv?) || (a.NDJson? && b.NDJson?) || (a.Parquet? && b.Parquet?) ||
      (a.Ipc? && b.Ipc?) || (a.Anonymous? && b.Anonymous?)
  {
  }

  /** The hash never depends on the metadata. */
  lemma HashIgnoresMetadata(s: FileScan)
    ensures HashInput(RemoveMetadata(s)) == HashInput(s)
  {
  }

  lemma RemoveMetadataIdempotent(s: FileScan)
    ensures RemoveMetadata(RemoveMetadata(s)) == RemoveMetadata(s)
  {
  }

  /** Removing metadata changes nothing the planner can observe. */
  lemma RemoveMetadataPreservesCapabilities(s: FileScan, fileOptions: FileScanOptions)
    ensures Flags(RemoveMetadata(s)) == Flags(s)
    ensures SortProjection(RemoveMetadata(s), fileOptions) == SortProjection(s, fileOptions)
    ensures Streamable(RemoveMetadata(s)) == Streamable(s)
  {
  }

  /** Equal scans report the same capabilities, so plan caching by `eq` is sound for them. */
  lemma EqPreservesCapabilities(a: FileScan, b: FileScan, fileOptions: FileScanOptions)
    requires Eq(a, b)
    ensures Flags(a) == Flags(b)
    ensures SortProjection(a, fileOptions) == SortProjection(b, fileOptions)
    ensures Streamable(a) == Streamable(b)
  {
  }
}
