/**
 The electronic-appliance hierarchy: an abstract base `AlatElektronik` with the
 two concrete kinds `Televisi` and `Kulkas`. The closed class hierarchy becomes
 one datatype with a constructor per kind; every kind carries the base fields
 (`nama`, `daya`, `fitur`) and its own descriptive string (`ukuran` or `tipe`).
 Methods that mutate the object become functions returning the updated value.
 */
module Appliance {
  import opened Decimal

  datatype AlatElektronik =
    | Televisi(nama: string, daya: int, fitur: seq<string>, ukuran: string)
    | Kulkas(nama: string, daya: int, fitur: seq<string>, tipe: string)

  /** The shapes the feature argument can take at run time. `Other` stands for
      any value that is neither `None`, a `str` nor a `list` (a tuple, a number, ...). */
  datatype FiturArg = Absent | Single(item: string) | Many(items: seq<string>) | Other

  /** Watts per hour a television spends on its speaker on top of its rated power. */
  const SpeakerDaya := 20

  /** Everything except the feature list is the same in `a` and `b`. */
  predicate SameExceptFitur(a: AlatElektronik, b: AlatElektronik) {
    match a
    case Televisi(n, d, _, u) => b.Televisi? && b.nama == n && b.daya == d && b.ukuran == u
    case Kulkas(n, d, _, t) => b.Kulkas? && b.nama == n && b.daya == d && b.tipe == t
  }

  /** The name each kind's constructor gives it. */
  predicate NamedByKind(a: AlatElektronik) {
    a.nama == (if a.Televisi? then "Televisi" else "Kulkas")
  }

  // ---------------------------------------------------------------- construction

  function NewTelevisi(daya: int := 100, ukuran: string := "32 inch"): (tv: AlatElektronik)
    ensures tv.Televisi? && NamedByKind(tv)
    ensures tv.daya == daya && tv.ukuran == ukuran
    ensures tv.fitur == []
  {
    Televisi("Televisi", daya, [], ukuran)
  }

  function NewKulkas(daya: int := 150, tipe: string := "2 Pintu"): (k: AlatElektronik)
    ensures k.Kulkas? && NamedByKind(k)
    ensures k.daya == daya && k.tipe == tipe
    ensures k.fitur == []
  {
    Kulkas("Kulkas", daya, [], tipe)
  }

  /** The defaults of both constructors, spelled out. */
  lemma DefaultConstructors()
    ensures NewTelevisi() == Televisi("Televisi", 100, [], "32 inch")
    ensures NewKulkas() == Kulkas("Kulkas", 150, [], "2 Pintu")
  {
  }

  // ---------------------------------------------------------------- consumption

  /** The base-class computation: rated power times hours of use. */
  function KonsumsiDasar(daya: int, jam: int): int {
    daya * jam
  }

  /** A television adds its speaker overhead to the base computation; a
      refrigerator uses the base computation unchanged. */
  function HitungKonsumsiDaya(a: AlatElektronik, jam: int): (wh: int)
    ensures a.Kulkas? ==> wh == KonsumsiDasar(a.daya, jam)
    ensures a.Televisi? ==> wh == KonsumsiDasar(a.daya, jam) + SpeakerDaya * jam
  {
    match a
    case Televisi(_, daya, _, _) => KonsumsiDasar(daya, jam) + SpeakerDaya * jam
    case Kulkas(_, daya, _, _) => KonsumsiDasar(daya, jam)
  }

  /** A television consumes exactly what a base appliance rated 20 W higher would. */
  lemma TelevisiIsBaseWithSpeaker(a: AlatElektronik, jam: int)
    requires a.Televisi?
    ensures HitungKonsumsiDaya(a, jam) == KonsumsiDasar(a.daya + SpeakerDaya, jam)
  {
  }

  /** Consumption over two periods is the sum of the consumption over each, for both kinds. */
  lemma KonsumsiAdditive(a: AlatElektronik, j1: int, j2: int)
    ensures HitungKonsumsiDaya(a, j1 + j2) == HitungKonsumsiDaya(a, j1) + HitungKonsumsiDaya(a, j2)
    ensures HitungKonsumsiDaya(a, 0) == 0
  {
  }

  // ---------------------------------------------------------------- features

  /** The feature add: a single string is appended, a list is appended in order,
      and no argument or an argument of any other shape changes nothing. */
  function TambahFitur(a: AlatElektronik, arg: FiturArg := Absent): (r: AlatElektronik)
    ensures SameExceptFitur(a, r)
    ensures |a.fitur| <= |r.fitur| && r.fitur[..|a.fitur|] == a.fitur
    ensures (arg.Absent? || arg.Other?) ==> r == a
    ensures arg.Single? ==> |r.fitur| == |a.fitur| + 1 && r.fitur[|a.fitur|] == arg.item
    ensures arg.Many? ==> |r.fitur| == |a.fitur| + |arg.items| && r.fitur[|a.fitur|..] == arg.items
  {
    match arg
    case Absent => a
    case Single(s) => a.(fitur := a.fitur + [s])
    case Many(items) => a.(fitur := a.fitur + items)
    case Other => a
  }

  /** Appends the features one at a time, each as a single string. */
  function TambahSatuPerSatu(a: AlatElektronik, items: seq<string>): AlatElektronik
    decreases |items|
  {
    if |items| == 0 then a else TambahSatuPerSatu(TambahFitur(a, Single(items[0])), items[1..])
  }

  /** Extending by a list is the same as appending its elements one by one, in order. */
  lemma {:induction false} ManyIsRepeatedSingle(a: AlatElektronik, items: seq<string>)
    ensures TambahFitur(a, Many(items)) == TambahSatuPerSatu(a, items)
    decreases |items|
  {
    if |items| == 0 {
      assert a.fitur + items == a.fitur;
    } else {
      var b := TambahFitur(a, Single(items[0]));
      ManyIsRepeatedSingle(b, items[1..]);
      assert b.fitur + items[1..] == a.fitur + items;
    }
  }

  /** Two list extensions in a row equal one extension by the concatenated list. */
  lemma ManyThenMany(a: AlatElektronik, xs: seq<string>, ys: seq<string>)
    ensures TambahFitur(TambahFitur(a, Many(xs)), Many(ys)) == TambahFitur(a, Many(xs + ys))
  {
  }

  /** Insertion order survives: `["A", "B"]` and then `"C"` leave `A, B, C` at the end, in that order. */
  lemma InsertionOrderExample(a: AlatElektronik)
    ensures TambahFitur(TambahFitur(a, Many(["A", "B"])), Single("C")).fitur == a.fitur + ["A", "B", "C"]
  {
  }

  /** A feature add changes neither the consumption nor the constructor-given name. */
  lemma TambahFiturKeepsBehaviour(a: AlatElektronik, arg: FiturArg, jam: int)
    ensures HitungKonsumsiDaya(TambahFitur(a, arg), jam) == HitungKonsumsiDaya(a, jam)
    ensures NamedByKind(a) <==> NamedByKind(TambahFitur(a, arg))
  {
  }

  // ---------------------------------------------------------------- display

  const DayaLabel := " (Daya: "
  const DayaUnit := "W)"

  /** The display string `<nama> (Daya: <daya>W)`. */
  function ToString(a: AlatElektronik): (r: string)
    ensures |r| > |a.nama| + |DayaLabel| + |DayaUnit|
    ensures r[..|a.nama|] == a.nama
    ensures r[|a.nama|..|a.nama| + |DayaLabel|] == DayaLabel
    ensures r[|r| - |DayaUnit|..] == DayaUnit
    ensures Canonical(r[|a.nama| + |DayaLabel|..|r| - |DayaUnit|])
    ensures ParseDecimal(r[|a.nama| + |DayaLabel|..|r| - |DayaUnit|]) == Some(a.daya)
  {
    var digits := IntToString(a.daya);
    var r := a.nama + DayaLabel + digits + DayaUnit;
    IntToStringRoundTrip(a.daya);
    assert r[|a.nama| + |DayaLabel|..|r| - |DayaUnit|] == digits;
    r
  }

  /** Two appliances with the same name display the same text only if their power is the same. */
  lemma ToStringDeterminesDaya(a: AlatElektronik, b: AlatElektronik)
    requires a.nama == b.nama
    ensures ToString(a) == ToString(b) <==> a.daya == b.daya
  {
  }

  /** A default television displays as `Televisi (Daya: 100W)`. */
  lemma DefaultTelevisiString()
    ensures ToString(NewTelevisi()) == "Televisi (Daya: 100W)"
  {
  }

  // ---------------------------------------------------------------- activation

  const Dihidupkan := " telah dihidupkan."

  /** `part` appears in `s` starting at position `i`. */
  predicate OccursAt(part: string, s: string, i: int) {
    0 <= i && i + |part| <= |s| && s[i..i + |part|] == part
  }

  /** The activation notice, naming the kind-specific descriptive field. */
  function Aktifkan(a: AlatElektronik): (msg: string)
    ensures OccursAt(a.nama, msg, 0)
    ensures a.Televisi? ==> OccursAt(" ukuran ", msg, |a.nama|) && OccursAt(a.ukuran, msg, |a.nama| + |" ukuran "|)
    ensures a.Televisi? ==> |msg| == |a.nama| + |" ukuran "| + |a.ukuran| + |Dihidupkan|
    ensures a.Kulkas? ==> OccursAt(" tipe ", msg, |a.nama|) && OccursAt(a.tipe, msg, |a.nama| + |" tipe "|)
    ensures a.Kulkas? ==> |msg| == |a.nama| + |" tipe "| + |a.tipe| + |Dihidupkan|
    ensures OccursAt(Dihidupkan, msg, |msg| - |Dihidupkan|)
  {
    match a
    case Televisi(nama, _, _, ukuran) => nama + " ukuran " + ukuran + Dihidupkan
    case Kulkas(nama, _, _, tipe) => nama + " tipe " + tipe + Dihidupkan
  }
}
