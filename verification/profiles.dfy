/** The five hand-labelled profile renderers. Each prints a banner, one
    line per fixed label in a fixed order with the record's value for that
    label's field (or N/A), and a closing rule. The label table of each is
    the specification; the methods append the lines one by one. */
module Profiles {
  import opened Text
  import opened Records

  /** A profile: its title, its empty-state message, and its rows, each a
      label (padding and colon included) with the field it shows. */
  datatype Profile = Profile(title: string, missing: string, rows: seq<(string, string)>)

  const PtDetails := Profile("Detail Perguruan Tinggi", "Detail Perguruan Tinggi tidak ditemukan.", [
    ("Nama PT      : ", "nama_pt"),
    ("Singkatan PT : ", "nm_singkat"),
    ("Kode PT      : ", "kode_pt"),
    ("Alamat       : ", "alamat"),
    ("Kota/Kab     : ", "kab_kota_pt"),
    ("Provinsi     : ", "provinsi_pt"),
    ("Website      : ", "website"),
    ("Email        : ", "email"),
    ("Telepon      : ", "no_tel"),
    ("Status       : ", "status_pt"),
    ("Akreditasi   : ", "akreditasi_pt")])

  const DosenProfile := Profile("Profil Dosen", "Profil Dosen tidak ditemukan.", [
    ("Nama Dosen        : ", "nama_dosen"),
    ("NIDN              : ", "nidn"),
    ("Jenis Kelamin     : ", "jenis_kelamin"),
    ("Jabatan Akademik  : ", "jabatan_akademik"),
    ("Pendidikan Tertinggi: ", "pendidikan_tertinggi"),
    ("Status Ikatan Kerja: ", "status_ikatan_kerja"),
    ("Status Aktivitas  : ", "status_aktivitas"),
    ("Nama PT           : ", "nama_pt"),
    ("Nama Prodi        : ", "nama_prodi")])

  const MahasiswaDetails := Profile("Detail Mahasiswa", "Detail Mahasiswa tidak ditemukan.", [
    ("Nama         : ", "nama"),
    ("NIM          : ", "nim"),
    ("Jenis Kelamin: ", "jenis_kelamin"),
    ("Tempat Lahir : ", "tempat_lahir"),
    ("Tgl. Lahir   : ", "tanggal_lahir"),
    ("Universitas  : ", "nama_pt"),
    ("Program Studi: ", "prodi"),
    ("Jenjang      : ", "jenjang"),
    ("Tgl. Masuk   : ", "tanggal_masuk"),
    ("Status       : ", "status_saat_ini"),
    ("Nama Ibu     : ", "nama_ibu")])

  const ProdiDetails := Profile("Detail Program Studi", "Detail Program Studi tidak ditemukan.", [
    ("Nama Prodi      : ", "nama_prodi"),
    ("Jenjang         : ", "jenj_didik"),
    ("Kode Prodi      : ", "kode_prodi"),
    ("Akreditasi      : ", "akreditasi"),
    ("Nama PT         : ", "nama_pt"),
    ("Tanggal Berdiri : ", "tgl_berdiri"),
    ("Status          : ", "status"),
    ("Email           : ", "email"),
    ("Website         : ", "website")])

  const ProdiDescription := Profile("Deskripsi Program Studi", "Deskripsi Program Studi tidak ditemukan.", [
    ("Deskripsi Singkat  : ", "deskripsi_singkat"),
    ("Visi               : ", "visi"),
    ("Misi               : ", "misi"),
    ("Kompetensi         : ", "kompetensi"),
    ("Capaian Belajar    : ", "capaian_belajar")])

  /** The lines of a profile for a non-empty record. */
  function ProfileLines(p: Profile, r: Record): seq<string>
  {
    [Header(p.title)]
    + seq(|p.rows|, i requires 0 <= i < |p.rows| => p.rows[i].0 + GetOr(r, p.rows[i].1))
    + [Rule(|p.title| + 8)]
  }

  /** Python's `not data` for a record argument: None or an empty dict. */
  predicate IsMissing(data: Option<Record>)
  {
    data.None? || |data.value| == 0
  }

  /** What a profile renderer returns. */
  function RenderProfile(p: Profile, data: Option<Record>): string
  {
    if IsMissing(data) then p.missing else JoinLines(ProfileLines(p, data.value))
  }

  /** A profile renders as its banner, exactly one line per row of its
      table in table order (the row's label and the record's value for the
      row's field), and a rule exactly as long as the banner. */
  lemma ProfileShape(p: Profile, r: Record)
    ensures var lines := ProfileLines(p, r);
      |lines| == |p.rows| + 2 && lines[0] == Header(p.title) &&
      lines[|lines| - 1] == Rule(|p.title| + 8) && |lines[|lines| - 1]| == |lines[0]| &&
      forall i :: 0 <= i < |p.rows| ==> lines[i + 1] == p.rows[i].0 + GetOr(r, p.rows[i].1)
  {
  }

  /** A field the record lacks prints N/A after its label. */
  lemma ProfileMissingField(p: Profile, r: Record, i: nat)
    requires i < |p.rows|
    requires forall k :: 0 <= k < |r| ==> r[k].0 != p.rows[i].1
    ensures ProfileLines(p, r)[i + 1] == p.rows[i].0 + "N/A"
  {
  }

  /** Keys outside the table are ignored: two records that agree on the
      table's fields render the same profile. */
  lemma ProfileIgnoresOtherKeys(p: Profile, a: Record, b: Record)
    requires forall i :: 0 <= i < |p.rows| ==> Lookup(a, p.rows[i].1) == Lookup(b, p.rows[i].1)
    ensures ProfileLines(p, a) == ProfileLines(p, b)
  {
    assert forall i :: 0 <= i < |p.rows| ==> GetOr(a, p.rows[i].1) == GetOr(b, p.rows[i].1);
  }

  /** The fixed number of labelled lines of each profile. */
  lemma ProfileRowCounts()
    ensures |PtDetails.rows| == 11 && |DosenProfile.rows| == 9 && |MahasiswaDetails.rows| == 11
    ensures |ProdiDetails.rows| == 9 && |ProdiDescription.rows| == 5
  {
  }

  /** A line sequence is the profile's lines once it has the banner, one
      labelled line per row in order, and the rule. */
  lemma LinesOfProfile(p: Profile, r: Record, lines: seq<string>)
    requires |lines| == |p.rows| + 2
    requires lines[0] == Header(p.title) && lines[|p.rows| + 1] == Rule(|p.title| + 8)
    requires forall i :: 0 <= i < |p.rows| ==> lines[i + 1] == p.rows[i].0 + GetOr(r, p.rows[i].1)
    ensures lines == ProfileLines(p, r)
  {
  }

  /** `format_pt_details(data)` */
  method FormatPtDetails(data: Option<Record>) returns (text: string)
    ensures text == RenderProfile(PtDetails, data)
  {
    if data.None? || |data.value| == 0 {
      return "Detail Perguruan Tinggi tidak ditemukan.";
    }
    var d := data.value;
    var title := "Detail Perguruan Tinggi";
    var output := ["--- " + title + " ---"];
    output := output + ["Nama PT      : " + GetOr(d, "nama_pt")];
    output := output + ["Singkatan PT : " + GetOr(d, "nm_singkat")];
    output := output + ["Kode PT      : " + GetOr(d, "kode_pt")];
    output := output + ["Alamat       : " + GetOr(d, "alamat")];
    output := output + ["Kota/Kab     : " + GetOr(d, "kab_kota_pt")];
    output := output + ["Provinsi     : " + GetOr(d, "provinsi_pt")];
    output := output + ["Website      : " + GetOr(d, "website")];
    output := output + ["Email        : " + GetOr(d, "email")];
    output := output + ["Telepon      : " + GetOr(d, "no_tel")];
    output := output + ["Status       : " + GetOr(d, "status_pt")];
    output := output + ["Akreditasi   : " + GetOr(d, "akreditasi_pt")];
    output := output + [Rule(|title| + 8)];
    LinesOfProfile(PtDetails, d, output);
    text := JoinLines(output);
  }

  /** `format_dosen_profile(data)` */
  method FormatDosenProfile(data: Option<Record>) returns (text: string)
    ensures text == RenderProfile(DosenProfile, data)
  {
    if data.None? || |data.value| == 0 {
      return "Profil Dosen tidak ditemukan.";
    }
    var d := data.value;
    var title := "Profil Dosen";
    var output := ["--- " + title + " ---"];
    output := output + ["Nama Dosen        : " + GetOr(d, "nama_dosen")];
    output := output + ["NIDN              : " + GetOr(d, "nidn")];
    output := output + ["Jenis Kelamin     : " + GetOr(d, "jenis_kelamin")];
    output := output + ["Jabatan Akademik  : " + GetOr(d, "jabatan_akademik")];
    output := output + ["Pendidikan Tertinggi: " + GetOr(d, "pendidikan_tertinggi")];
    output := output + ["Status Ikatan Kerja: " + GetOr(d, "status_ikatan_kerja")];
    output := output + ["Status Aktivitas  : " + GetOr(d, "status_aktivitas")];
    output := output + ["Nama PT           : " + GetOr(d, "nama_pt")];
    output := output + ["Nama Prodi        : " + GetOr(d, "nama_prodi")];
    output := output + [Rule(|title| + 8)];
    LinesOfProfile(DosenProfile, d, output);
    text := JoinLines(output);
  }

  /** `format_mahasiswa_details(data)` */
  method FormatMahasiswaDetails(data: Option<Record>) returns (text: string)
    ensures text == RenderProfile(MahasiswaDetails, data)
  {
    if data.None? || |data.value| == 0 {
      return "Detail Mahasiswa tidak ditemukan.";
    }
    var d := data.value;
    var title := "Detail Mahasiswa";
    var output := ["--- " + title + " ---"];
    output := output + ["Nama         : " + GetOr(d, "nama")];
    output := output + ["NIM          : " + GetOr(d, "nim")];
    output := output + ["Jenis Kelamin: " + GetOr(d, "jenis_kelamin")];
    output := output + ["Tempat Lahir : " + GetOr(d, "tempat_lahir")];
    output := output + ["Tgl. Lahir   : " + GetOr(d, "tanggal_lahir")];
    output := output + ["Universitas  : " + GetOr(d, "nama_pt")];
    output := output + ["Program Studi: " + GetOr(d, "prodi")];
    output := output + ["Jenjang      : " + GetOr(d, "jenjang")];
    output := output + ["Tgl. Masuk   : " + GetOr(d, "tanggal_masuk")];
    output := output + ["Status       : " + GetOr(d, "status_saat_ini")];
    output := output + ["Nama Ibu     : " + GetOr(d, "nama_ibu")];
    output := output + [Rule(|title| + 8)];
    LinesOfProfile(MahasiswaDetails, d, output);
    text := JoinLines(output);
  }

  /** `format_prodi_details(data)` */
  method FormatProdiDetails(data: Option<Record>) returns (text: string)
    ensures text == RenderProfile(ProdiDetails, data)
  {
    if data.None? || |data.value| == 0 {
      return "Detail Program Studi tidak ditemukan.";
    }
    var d := data.value;
    var title := "Detail Program Studi";
    var output := ["--- " + title + " ---"];
    output := output + ["Nama Prodi      : " + GetOr(d, "nama_prodi")];
    output := output + ["Jenjang         : " + GetOr(d, "jenj_didik")];
    output := output + ["Kode Prodi      : " + GetOr(d, "kode_prodi")];
    output := output + ["Akreditasi      : " + GetOr(d, "akreditasi")];
    output := output + ["Nama PT         : " + GetOr(d, "nama_pt")];
    output := output + ["Tanggal Berdiri : " + GetOr(d, "tgl_berdiri")];
    output := output + ["Status          : " + GetOr(d, "status")];
    output := output + ["Email           : " + GetOr(d, "email")];
    output := output + ["Website         : " + GetOr(d, "website")];
    output := output + [Rule(|title| + 8)];
    LinesOfProfile(ProdiDetails, d, output);
    text := JoinLines(output);
  }

  /** `format_prodi_description(data)` */
  method FormatProdiDescription(data: Option<Record>) returns (text: string)
    ensures text == RenderProfile(ProdiDescription, data)
  {
    if data.None? || |data.value| == 0 {
      return "Deskripsi Program Studi tidak ditemukan.";
    }
    var d := data.value;
    var title := "Deskripsi Program Studi";
    var output := ["--- " + title + " ---"];
    output := output + ["Deskripsi Singkat  : " + GetOr(d, "deskripsi_singkat")];
    output := output + ["Visi               : " + GetOr(d, "visi")];
    output := output + ["Misi               : " + GetOr(d, "misi")];
    output := output + ["Kompetensi         : " + GetOr(d, "kompetensi")];
    output := output + ["Capaian Belajar    : " + GetOr(d, "capaian_belajar")];
    output := output + [Rule(|title| + 8)];
    LinesOfProfile(ProdiDescription, d, output);
    text := JoinLines(output);
  }
}
