/** The catalog of thin renderers. Each binds a title, a field list and an
    empty-state message to one of the generic renderers; here that binding
    is a table (`EntryOf`) and one dispatch (`Format`, specified by
    `Render`). The three blob reporters share `BlobReport`. */
module Catalog {
  import opened Text
  import opened Records
  import opened Primitives

  /** Which generic renderer an entry delegates to, with its fixed
      arguments. `kind` is the blob's name in the report sentence. */
  datatype Shape =
    | RecordShape(title: string)
    | ListShape(title: string, fields: seq<string>)
    | BlobShape(kind: string)

  /** `guard` is `Some(message)` when the renderer first answers `not data`
      with that message, `None` for the search wrappers, which hand even an
      empty or missing list to `_format_list_of_dicts`. */
  datatype Entry = Entry(guard: Option<string>, shape: Shape)

  /** The argument of a catalog renderer: None, a dict, a list of dicts,
      or a base64 string. */
  datatype Payload =
    | Absent
    | RecordData(record: Record)
    | ListData(items: seq<Record>)
    | BlobData(blob: string)

  /** Python's `not data`. */
  predicate IsEmpty(p: Payload)
  {
    match p
    case Absent => true
    case RecordData(r) => |r| == 0
    case ListData(items) => |items| == 0
    case BlobData(b) => |b| == 0
  }

  /** The arguments a renderer handles without raising: any empty
      argument, whatever its type, wherever `not data` is tested first (by
      the renderer itself, or for the search wrappers by the list renderer
      they call); otherwise a non-empty argument of the declared type. */
  predicate Accepts(e: Entry, p: Payload)
  {
    match e.shape
    case RecordShape(_) => p.RecordData? || (IsEmpty(p) && e.guard.Some?)
    case ListShape(_, _) => p.ListData? || IsEmpty(p)
    case BlobShape(_) => p.BlobData? || (IsEmpty(p) && e.guard.Some?)
  }

  /** The list a list renderer sees; any empty argument acts as the empty
      list. */
  function ItemsOf(p: Payload): seq<Record>
  {
    if p.ListData? then p.items else []
  }

  // ---------------------------------------------------------------------
  // Blob reporters

  const SnippetLength := 100

  /** `data[:100]` */
  function Snippet(blob: string): string
  {
    if |blob| < SnippetLength then blob else blob[..SnippetLength]
  }

  function BlobHead(kind: string): string
  {
    "Data " + kind + " (base64) diterima. Panjang: "
  }

  const BlobMiddle := " karakter. Cuplikan: "

  /** `f"Data {kind} (base64) diterima. Panjang: {len(data)} karakter. Cuplikan: {data[:100]}..."`:
      one sentence whose length is bounded whatever the size of the blob. */
  function BlobReport(kind: string, blob: string): (r: string)
    ensures BlobHead(kind) <= r
    ensures |r| >= 3 && r[|r| - 3..] == "..."
    ensures |r| <= |BlobHead(kind)| + |NatToString(|blob|)| + |BlobMiddle| + SnippetLength + 3
  {
    BlobHead(kind) + NatToString(|blob|) + BlobMiddle + Snippet(blob) + "..."
  }

  /** How many decimal digits a text starts with. */
  function LeadingDigits(s: string): (n: nat)
    ensures n <= |s|
    ensures forall i :: 0 <= i < n ==> IsDigit(s[i])
    ensures n < |s| ==> !IsDigit(s[n])
  {
    if |s| == 0 || !IsDigit(s[0]) then 0 else 1 + LeadingDigits(s[1..])
  }

  /** Reads a text of the shape head, decimal number, middle, snippet,
      "..." back into the number and the snippet; None for any other
      text. */
  function ParseReport(head: string, middle: string, t: string): Option<(nat, string)>
  {
    if |t| < |head| || t[..|head|] != head then None else ParseNumbered(middle, t[|head|..])
  }

  /** The part after the head: the number, then the middle and snippet. */
  function ParseNumbered(middle: string, rest: string): Option<(nat, string)>
  {
    var n := LeadingDigits(rest);
    if n == 0 then None
    else match ParseSnippet(middle, rest[n..])
      case None => None
      case Some(snip) => Some((ParseDecimal(rest[..n]), snip))
  }

  /** The part after the number: the middle, the snippet and "...". */
  function ParseSnippet(middle: string, after: string): Option<string>
  {
    if |after| < |middle| + 3 || after[..|middle|] != middle || after[|after| - 3..] != "..." then None
    else Some(after[|middle|..|after| - 3])
  }

  /** Reads a blob report back into the length and the snippet it states,
      or None if the text is not a report about that kind of blob. */
  function ParseBlobReport(kind: string, t: string): Option<(nat, string)>
  {
    ParseReport(BlobHead(kind), BlobMiddle, t)
  }

  lemma {:induction false} LeadingDigitsOfNumber(digits: string, tail: string)
    requires forall i :: 0 <= i < |digits| ==> IsDigit(digits[i])
    requires |tail| > 0 && !IsDigit(tail[0])
    ensures LeadingDigits(digits + tail) == |digits|
  {
    if |digits| > 0 {
      assert (digits + tail)[1..] == digits[1..] + tail;
      LeadingDigitsOfNumber(digits[1..], tail);
    } else {
      assert digits + tail == tail;
    }
  }

  /** Reading back a text built from a head, a number's digits, a middle
      that does not start with a digit, a snippet and "..." recovers the
      number and the snippet. */
  lemma ReportRoundTrip(head: string, digits: string, middle: string, snip: string)
    requires |digits| > 0 && forall i :: 0 <= i < |digits| ==> IsDigit(digits[i])
    requires |middle| > 0 && !IsDigit(middle[0])
    ensures ParseReport(head, middle, head + digits + middle + snip + "...") == Some((ParseDecimal(digits), snip))
  {
    var tail := middle + snip + "...";
    ConcatRegroup(head, digits, middle, snip, "...");
    var t := head + (digits + tail);
    assert t[..|head|] == head && t[|head|..] == digits + tail;
    NumberedRoundTrip(digits, middle, snip);
  }

  lemma ConcatRegroup(a: string, b: string, c: string, d: string, e: string)
    ensures a + b + c + d + e == a + (b + (c + d + e))
  {
  }

  lemma NumberedRoundTrip(digits: string, middle: string, snip: string)
    requires |digits| > 0 && forall i :: 0 <= i < |digits| ==> IsDigit(digits[i])
    requires |middle| > 0 && !IsDigit(middle[0])
    ensures ParseNumbered(middle, digits + (middle + snip + "...")) == Some((ParseDecimal(digits), snip))
  {
    var tail := middle + snip + "...";
    var rest := digits + tail;
    LeadingDigitsOfNumber(digits, tail);
    assert rest[..|digits|] == digits && rest[|digits|..] == tail;
    SnippetRoundTrip(middle, snip);
  }


  lemma SnippetRoundTrip(middle: string, snip: string)
    ensures ParseSnippet(middle, middle + snip + "...") == Some(snip)
  {
    var after := middle + snip + "...";
    assert after[..|middle|] == middle;
    assert after[|after| - 3..] == "...";
    assert after[|middle|..|after| - 3] == snip;
  }

  /** A blob report states the blob's true length and its first 100
      characters (the whole blob when it is shorter), followed by "..."
      whatever the length; reading the report back recovers both. */
  lemma BlobReportRoundTrip(kind: string, blob: string)
    ensures ParseBlobReport(kind, BlobReport(kind, blob)) == Some((|blob|, Snippet(blob)))
    ensures |blob| < SnippetLength ==> Snippet(blob) == blob
    ensures |blob| >= SnippetLength ==> Snippet(blob) == blob[..SnippetLength]
  {
    assert BlobMiddle[0] == ' ';
    ReportRoundTrip(BlobHead(kind), NatToString(|blob|), BlobMiddle, Snippet(blob));
    ParseNatToString(|blob|);
  }

  // ---------------------------------------------------------------------
  // The catalog

  datatype RendererId =
    | ProdiPtList | LogoPt | RasioPt | MahasiswaPtStats | WaktuStudiPt | NameHistoriesPt
    | CostRangePt | GraduationRatePt | JumlahProdiPt | JumlahMahasiswaPt | JumlahDosenPt
    | SarprasFileNamePt | SarprasBlobPt
    | DosenPenelitian | DosenPengabdian | DosenKarya | DosenPaten | DosenStudyHistory
    | DosenTeachingHistory
    | ProdiNameHistories | ProdiNumStudentsLecturers | ProdiCostRange | ProdiDayaTampung
    | ProdiRasioDosenMahasiswa | ProdiGraduationRate | LogoProdi | HomebaseProdi
    | DosenCountActive | MahasiswaCountActive | ProdiCount | PtCount
    | DataDosenKeaktifan | DataDosenBidang | DataDosenJenisKelamin | DataDosenJenjang
    | DataDosenIkatan | DataMahasiswaBidang | DataMahasiswaJenisKelamin | DataMahasiswaJenjang
    | DataMahasiswaKelompokLembaga | DataMahasiswaStatus | DataPtBentuk | DataPtAkreditasi
    | DataPtKelompokPembina | DataPtProvinsi | DataProdiJenjang | DataProdiAkreditasi
    | DataProdiBidangIlmu | DataProdiKelompokPembina
    | SearchDosen | SearchMahasiswa | SearchPt | SearchProdi
    | ContributorList | NewsList | BidangIlmuProdi
  {
    predicate IsSearch()
    {
      SearchDosen? || SearchMahasiswa? || SearchPt? || SearchProdi?
    }
  }

  /** The message a guarded renderer returns for `not data`. */
  function Message(id: RendererId): string
    requires !id.IsSearch()
  {
    match id
    case ProdiPtList => "Program Studi tidak ditemukan untuk PT ini."
    case LogoPt => "Logo tidak ditemukan."
    case RasioPt => "Rasio Mahasiswa & Dosen tidak ditemukan."
    case MahasiswaPtStats => "Statistik Mahasiswa tidak ditemukan."
    case WaktuStudiPt => "Data Waktu Studi tidak ditemukan."
    case NameHistoriesPt => "Sejarah Nama PT tidak ditemukan."
    case CostRangePt => "Kisaran Biaya Kuliah PT tidak ditemukan."
    case GraduationRatePt => "Tingkat Kelulusan PT tidak ditemukan."
    case JumlahProdiPt => "Jumlah Program Studi PT tidak ditemukan."
    case JumlahMahasiswaPt => "Jumlah Mahasiswa PT tidak ditemukan."
    case JumlahDosenPt => "Jumlah Dosen PT tidak ditemukan."
    case SarprasFileNamePt => "Nama File Sarpras tidak ditemukan."
    case SarprasBlobPt => "Blob Sarpras tidak ditemukan."
    case DosenPenelitian => "Penelitian Dosen tidak ditemukan."
    case DosenPengabdian => "Pengabdian Dosen tidak ditemukan."
    case DosenKarya => "Karya Ilmiah Dosen tidak ditemukan."
    case DosenPaten => "Paten Dosen tidak ditemukan."
    case DosenStudyHistory => "Riwayat Studi Dosen tidak ditemukan."
    case DosenTeachingHistory => "Riwayat Mengajar Dosen tidak ditemukan."
    case ProdiNameHistories => "Sejarah Nama Program Studi tidak ditemukan."
    case ProdiNumStudentsLecturers => "Jumlah Mahasiswa & Dosen Prodi tidak ditemukan."
    case ProdiCostRange => "Kisaran Biaya Kuliah Prodi tidak ditemukan."
    case ProdiDayaTampung => "Daya Tampung Prodi tidak ditemukan."
    case ProdiRasioDosenMahasiswa => "Rasio Dosen Mahasiswa Prodi tidak ditemukan."
    case ProdiGraduationRate => "Tingkat Kelulusan Prodi tidak ditemukan."
    case LogoProdi => "Logo Prodi tidak ditemukan."
    case HomebaseProdi => "Homebase Prodi tidak ditemukan."
    case DosenCountActive => "Jumlah Dosen Aktif tidak ditemukan."
    case MahasiswaCountActive => "Jumlah Mahasiswa Aktif tidak ditemukan."
    case ProdiCount => "Jumlah Program Studi tidak ditemukan."
    case PtCount => "Jumlah Perguruan Tinggi tidak ditemukan."
    case DataDosenKeaktifan => "Data Keaktifan Dosen tidak ditemukan."
    case DataDosenBidang => "Data Dosen Berdasarkan Bidang tidak ditemukan."
    case DataDosenJenisKelamin => "Data Dosen Berdasarkan Jenis Kelamin tidak ditemukan."
    case DataDosenJenjang => "Data Dosen Berdasarkan Jenjang tidak ditemukan."
    case DataDosenIkatan => "Data Dosen Berdasarkan Ikatan tidak ditemukan."
    case DataMahasiswaBidang => "Data Mahasiswa Berdasarkan Bidang tidak ditemukan."
    case DataMahasiswaJenisKelamin => "Data Mahasiswa Berdasarkan Jenis Kelamin tidak ditemukan."
    case DataMahasiswaJenjang => "Data Mahasiswa Berdasarkan Jenjang tidak ditemukan."
    case DataMahasiswaKelompokLembaga => "Data Mahasiswa Berdasarkan Kelompok Lembaga tidak ditemukan."
    case DataMahasiswaStatus => "Data Mahasiswa Berdasarkan Status tidak ditemukan."
    case DataPtBentuk => "Data Perguruan Tinggi Berdasarkan Bentuk tidak ditemukan."
    case DataPtAkreditasi => "Data Perguruan Tinggi Berdasarkan Akreditasi tidak ditemukan."
    case DataPtKelompokPembina => "Data Perguruan Tinggi Berdasarkan Kelompok Pembina tidak ditemukan."
    case DataPtProvinsi => "Data Perguruan Tinggi Berdasarkan Provinsi tidak ditemukan."
    case DataProdiJenjang => "Data Program Studi Berdasarkan Jenjang tidak ditemukan."
    case DataProdiAkreditasi => "Data Program Studi Berdasarkan Akreditasi tidak ditemukan."
    case DataProdiBidangIlmu => "Data Program Studi Berdasarkan Bidang Ilmu tidak ditemukan."
    case DataProdiKelompokPembina => "Data Program Studi Berdasarkan Kelompok Pembina tidak ditemukan."
    case ContributorList => "Daftar Kontributor tidak ditemukan."
    case NewsList => "Daftar Berita tidak ditemukan."
    case BidangIlmuProdi => "Daftar Bidang Ilmu Prodi tidak ditemukan."
  }

  /** The generic renderer each catalog renderer delegates to, with the
      title and fields it passes. */
  function ShapeOf(id: RendererId): Shape
  {
    match id
    case ProdiPtList => ListShape("Daftar Program Studi di PT", ["nama_prodi", "jenjang_prodi", "akreditasi", "jumlah_mahasiswa", "jumlah_dosen"])
    case LogoPt => BlobShape("Logo")
    case RasioPt => RecordShape("Rasio Mahasiswa & Dosen")
    case MahasiswaPtStats => RecordShape("Statistik Mahasiswa")
    case WaktuStudiPt => ListShape("Rata-rata Waktu Studi PT", ["jenjang", "mean_masa_studi"])
    case NameHistoriesPt => ListShape("Sejarah Nama Perguruan Tinggi", ["nama_lama", "tanggal_perubahan"])
    case CostRangePt => RecordShape("Kisaran Biaya Kuliah PT")
    case GraduationRatePt => RecordShape("Tingkat Kelulusan PT")
    case JumlahProdiPt => RecordShape("Jumlah Program Studi PT")
    case JumlahMahasiswaPt => RecordShape("Jumlah Mahasiswa PT")
    case JumlahDosenPt => RecordShape("Jumlah Dosen PT")
    case SarprasFileNamePt => ListShape("Nama File Sarpras PT", ["id_blob", "file_name"])
    case SarprasBlobPt => BlobShape("Blob Sarpras")
    case DosenPenelitian => ListShape("Penelitian Dosen", ["judul_kegiatan", "tahun_kegiatan", "jenis_kegiatan"])
    case DosenPengabdian => ListShape("Pengabdian Dosen", ["judul_kegiatan", "tahun_kegiatan", "jenis_kegiatan"])
    case DosenKarya => ListShape("Karya Ilmiah Dosen", ["judul_kegiatan", "tahun_kegiatan", "jenis_kegiatan"])
    case DosenPaten => ListShape("Paten Dosen", ["judul_kegiatan", "tahun_kegiatan", "jenis_kegiatan"])
    case DosenStudyHistory => ListShape("Riwayat Studi Dosen", ["jenjang", "bidang_studi", "nama_pt", "tahun_lulus"])
    case DosenTeachingHistory => ListShape("Riwayat Mengajar Dosen", ["nama_semester", "nama_matkul", "nama_kelas", "nama_pt"])
    case ProdiNameHistories => ListShape("Sejarah Nama Program Studi", ["nama_lama", "tanggal_perubahan"])
    case ProdiNumStudentsLecturers => RecordShape("Jumlah Mahasiswa & Dosen Prodi")
    case ProdiCostRange => RecordShape("Kisaran Biaya Kuliah Prodi")
    case ProdiDayaTampung => RecordShape("Daya Tampung Prodi")
    case ProdiRasioDosenMahasiswa => RecordShape("Rasio Dosen Mahasiswa Prodi")
    case ProdiGraduationRate => RecordShape("Tingkat Kelulusan Prodi")
    case LogoProdi => BlobShape("Logo Prodi")
    case HomebaseProdi => RecordShape("Homebase Prodi")
    case DosenCountActive => RecordShape("Jumlah Dosen Aktif")
    case MahasiswaCountActive => RecordShape("Jumlah Mahasiswa Aktif")
    case ProdiCount => RecordShape("Jumlah Program Studi")
    case PtCount => RecordShape("Jumlah Perguruan Tinggi")
    case DataDosenKeaktifan => ListShape("Visualisasi Keaktifan Dosen", ["status_keaktifan", "jumlah_dosen"])
    case DataDosenBidang => ListShape("Visualisasi Dosen Berdasarkan Bidang", ["bidang", "jumlah_dosen"])
    case DataDosenJenisKelamin => ListShape("Visualisasi Dosen Berdasarkan Jenis Kelamin", ["jenis_kelamin", "jumlah"])
    case DataDosenJenjang => ListShape("Visualisasi Dosen Berdasarkan Jenjang", ["jenjang_dosen", "jumlah_dosen"])
    case DataDosenIkatan => ListShape("Visualisasi Dosen Berdasarkan Ikatan", ["ikatan_dosen", "jumlah"])
    case DataMahasiswaBidang => ListShape("Visualisasi Mahasiswa Berdasarkan Bidang", ["bidang", "jumlah_mhs"])
    case DataMahasiswaJenisKelamin => ListShape("Visualisasi Mahasiswa Berdasarkan Jenis Kelamin", ["jenis_kelamin", "jumlah_mhs"])
    case DataMahasiswaJenjang => ListShape("Visualisasi Mahasiswa Berdasarkan Jenjang", ["nama_jenjang", "jumlah_mhs"])
    case DataMahasiswaKelompokLembaga => ListShape("Visualisasi Mahasiswa Berdasarkan Kelompok Lembaga", ["kelompok_lembaga", "jumlah_mhs"])
    case DataMahasiswaStatus => ListShape("Visualisasi Mahasiswa Berdasarkan Status", ["status_mahasiswa", "jumlah"])
    case DataPtBentuk => ListShape("Visualisasi Perguruan Tinggi Berdasarkan Bentuk", ["bentuk_pt", "jumlah_pt"])
    case DataPtAkreditasi => ListShape("Visualisasi Perguruan Tinggi Berdasarkan Akreditasi", ["akreditasi", "jumlah_pt"])
    case DataPtKelompokPembina => ListShape("Visualisasi Perguruan Tinggi Berdasarkan Kelompok Pembina", ["kelompok_pembina", "jumlah_pt"])
    case DataPtProvinsi => ListShape("Visualisasi Perguruan Tinggi Berdasarkan Provinsi", ["provinsi", "jumlah_pt"])
    case DataProdiJenjang => ListShape("Visualisasi Program Studi Berdasarkan Jenjang", ["jenjang_prodi", "jumlah_prodi"])
    case DataProdiAkreditasi => ListShape("Visualisasi Program Studi Berdasarkan Akreditasi", ["akreditasi_prodi", "jumlah_prodi"])
    case DataProdiBidangIlmu => ListShape("Visualisasi Program Studi Berdasarkan Bidang Ilmu", ["bidang_ilmu", "jumlah_prodi"])
    case DataProdiKelompokPembina => ListShape("Visualisasi Program Studi Berdasarkan Kelompok Pembina", ["kelompok_pembina", "jumlah_prodi"])
    case SearchDosen => ListShape("Dosen", ["nama", "nidn", "nama_pt", "nama_prodi"])
    case SearchMahasiswa => ListShape("Mahasiswa", ["nama", "nim", "nama_pt", "nama_prodi"])
    case SearchPt => ListShape("Perguruan Tinggi", ["nama", "kode", "nama_singkat"])
    case SearchProdi => ListShape("Program Studi", ["nama", "jenjang", "pt"])
    case ContributorList => ListShape("Daftar Kontributor", ["name", "role", "universitas", "linkedin"])
    case NewsList => ListShape("Daftar Berita", ["title", "date", "url"])
    case BidangIlmuProdi => ListShape("Daftar Bidang Ilmu Program Studi", ["nama"])
  }

  /** The binding each catalog renderer declares. Exactly the four search
      wrappers skip the `not data` guard. */
  function EntryOf(id: RendererId): Entry
  {
    Entry(if id.IsSearch() then None else Some(Message(id)), ShapeOf(id))
  }

  /** What a catalog renderer returns: its message for `not data` when it
      is guarded, otherwise the output of the renderer it delegates to. */
  function Render(e: Entry, p: Payload): (r: string)
    requires Accepts(e, p)
    ensures e.guard.Some? && IsEmpty(p) ==> r == e.guard.value
    ensures !(e.guard.Some? && IsEmpty(p)) ==>
      (if e.shape.BlobShape? then BlobHead(e.shape.kind) else Header(e.shape.title)) <= r
  {
    if e.guard.Some? && IsEmpty(p) then e.guard.value
    else
      match e.shape
      case RecordShape(title) => JoinLines(DictLines(p.record, title))
      case ListShape(title, fields) => JoinLines(ListLines(ItemsOf(p), title, fields))
      case BlobShape(kind) => BlobReport(kind, p.blob)
  }

  /** The catalog renderer `id` applied to `data`: the guard, then a call
      to the generic renderer with the entry's fixed arguments. */
  method Format(id: RendererId, data: Payload) returns (text: string)
    requires Accepts(EntryOf(id), data)
    ensures text == Render(EntryOf(id), data)
  {
    var e := EntryOf(id);
    if e.guard.Some? && IsEmpty(data) {
      return e.guard.value;
    }
    match e.shape {
      case RecordShape(title) =>
        text := FormatDict(data.record, title);
      case ListShape(title, fields) =>
        text := FormatListOfDicts(ItemsOf(data), title, fields);
      case BlobShape(kind) =>
        text := BlobReport(kind, data.blob);
    }
  }

  /** Every guarded renderer answers any empty argument (None, an empty
      dict, an empty list or an empty string) with exactly its own message. */
  lemma GuardedEmpty(id: RendererId, p: Payload)
    requires IsEmpty(p) && !id.IsSearch()
    ensures Accepts(EntryOf(id), p)
    ensures Render(EntryOf(id), p) == Message(id)
  {
  }

  /** `format_prodi_pt_list` on any empty argument gives its message. */
  lemma ProdiPtListEmpty(p: Payload)
    requires IsEmpty(p)
    ensures Accepts(EntryOf(ProdiPtList), p)
    ensures Render(EntryOf(ProdiPtList), p) == "Program Studi tidak ditemukan untuk PT ini."
  {
  }

  /** `format_prodi_pt_list` on a non-empty list lists its five fields
      under the title `Daftar Program Studi di PT`. */
  lemma ProdiPtListItems(items: seq<Record>)
    requires |items| > 0
    ensures Render(EntryOf(ProdiPtList), ListData(items))
         == JoinLines(ListLines(items, "Daftar Program Studi di PT",
                                ["nama_prodi", "jenjang_prodi", "akreditasi", "jumlah_mahasiswa", "jumlah_dosen"]))
  {
  }

  /** `format_rasio_pt` gives its message for `{}` and the `_format_dict`
      report under its own title otherwise. */
  lemma RasioPtRecord(r: Record)
    ensures Render(EntryOf(RasioPt), RecordData(r))
         == if |r| == 0 then "Rasio Mahasiswa & Dosen tidak ditemukan."
            else JoinLines(DictLines(r, "Rasio Mahasiswa & Dosen"))
  {
  }

  /** `format_logo_pt` reports a non-empty logo as a `Logo` blob. */
  lemma LogoPtBlob(b: string)
    requires |b| > 0
    ensures Render(EntryOf(LogoPt), BlobData(b)) == BlobReport("Logo", b)
  {
  }

  /** The search wrappers answer None or an empty list with exactly two
      lines: their banner and the no-data line, without a closing rule. */
  lemma SearchEmpty(id: RendererId, p: Payload)
    requires id.IsSearch() && IsEmpty(p)
    ensures Accepts(EntryOf(id), p)
    ensures ShapeOf(id).ListShape?
    ensures Render(EntryOf(id), p) == JoinLines(["--- " + ShapeOf(id).title + " ---", "Tidak ada data ditemukan."])
  {
    var e := EntryOf(id);
    SearchIsList(id);
    assert ItemsOf(p) == [];
    assert Render(e, p) == JoinLines(ListLines([], e.shape.title, e.shape.fields));
  }

  /** A non-empty argument is handed unchanged to the generic renderer
      with the entry's fixed title and fields. */
  lemma NonEmptyDelegates(id: RendererId, p: Payload)
    requires Accepts(EntryOf(id), p) && !IsEmpty(p)
    ensures EntryOf(id).shape.RecordShape? ==>
      p.RecordData? && Render(EntryOf(id), p) == JoinLines(DictLines(p.record, EntryOf(id).shape.title))
    ensures EntryOf(id).shape.ListShape? ==>
      p.ListData? &&
      Render(EntryOf(id), p) == JoinLines(ListLines(p.items, EntryOf(id).shape.title, EntryOf(id).shape.fields))
    ensures EntryOf(id).shape.BlobShape? ==>
      p.BlobData? && Render(EntryOf(id), p) == BlobReport(EntryOf(id).shape.kind, p.blob)
  {
  }

  lemma SearchIsList(id: RendererId)
    requires id.IsSearch()
    ensures ShapeOf(id).ListShape?
  {
    assert id.SearchDosen? || id.SearchMahasiswa? || id.SearchPt? || id.SearchProdi?;
  }
}
