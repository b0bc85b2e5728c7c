/**
 The driver that walks a list of appliances and reports on each one, and the
 demonstration scenario built on it. What the driver prints for an appliance
 becomes one `Catatan` (report) value: the name in the section header, the
 activation notice, the feature list and the consumption for the given hours.
 */
module Operate {
  import opened Appliance

  datatype Catatan = Catatan(nama: string, pesan: string, fitur: seq<string>, konsumsi: int)

  /** What the driver reports for one appliance: the header name, the activation
      notice of the appliance's own kind, its features, and its own kind of
      consumption for `jam` hours. */
  function Catat(a: AlatElektronik, jam: int): Catatan {
    Catatan(a.nama, Aktifkan(a), a.fitur, HitungKonsumsiDaya(a, jam))
  }

  /** One report per appliance, in list order. */
  method OperasikanAlat(alat: seq<AlatElektronik>, jam: int) returns (log: seq<Catatan>)
    ensures |log| == |alat|
    ensures forall i :: 0 <= i < |alat| ==> log[i] == Catat(alat[i], jam)
  {
    log := [];
    var k := 0;
    while k < |alat|
      invariant 0 <= k <= |alat|
      invariant |log| == k
      invariant forall i :: 0 <= i < k ==> log[i] == Catat(alat[i], jam)
    {
      log := log + [Catat(alat[k], jam)];
      k := k + 1;
    }
  }

  /** The notice of a default television, whatever its features. */
  lemma DefaultTelevisiNotice(f: seq<string>)
    ensures Aktifkan(Televisi("Televisi", 100, f, "32 inch")) == "Televisi ukuran 32 inch telah dihidupkan."
  {
    assert Aktifkan(Televisi("Televisi", 100, f, "32 inch")) == "Televisi" + " ukuran " + "32 inch" + Dihidupkan;
  }

  /** The notice of a default refrigerator, whatever its features. */
  lemma DefaultKulkasNotice(f: seq<string>)
    ensures Aktifkan(Kulkas("Kulkas", 150, f, "2 Pintu")) == "Kulkas tipe 2 Pintu telah dihidupkan."
  {
  }

  /** The demonstration: a default television and a default refrigerator, two
      features each, operated for five hours. */
  method Demo() returns (log: seq<Catatan>)
    ensures |log| == 2
    ensures log[0].nama == "Televisi" && log[0].fitur == ["Smart TV", "4K Resolution"]
    ensures log[0].konsumsi == 600
    ensures log[0].pesan == "Televisi ukuran 32 inch telah dihidupkan."
    ensures log[1].nama == "Kulkas" && log[1].fitur == ["Ice Maker", "Energy Efficient"]
    ensures log[1].konsumsi == 750
    ensures log[1].pesan == "Kulkas tipe 2 Pintu telah dihidupkan."
  {
    var tv := NewTelevisi();
    var kulkas := NewKulkas();
    tv := TambahFitur(tv, Many(["Smart TV", "4K Resolution"]));
    kulkas := TambahFitur(kulkas, Many(["Ice Maker", "Energy Efficient"]));
    assert tv == Televisi("Televisi", 100, ["Smart TV", "4K Resolution"], "32 inch");
    assert kulkas == Kulkas("Kulkas", 150, ["Ice Maker", "Energy Efficient"], "2 Pintu");
    log := OperasikanAlat([tv, kulkas], 5);
    assert log[0] == Catat(tv, 5) && log[1] == Catat(kulkas, 5);
    DefaultTelevisiNotice(tv.fitur);
    DefaultKulkasNotice(kulkas.fitur);
  }
}
