# Electronic appliances with polymorphic consumption — a Dafny model

The Python program defines an abstract appliance `AlatElektronik` (name `nama`,
rated power `daya` in watts, feature list `fitur`) and two concrete kinds:
`Televisi`, which adds a screen size `ukuran` and overrides the consumption
computation with a 20 W speaker overhead, and `Kulkas`, which adds a type
`tipe` and inherits the base computation. A driver `operasikan_alat` reports on
each appliance of a list, and `main` runs a two-appliance demonstration.

The model has three modules:

- `Decimal` (`decimal.dfy`): the decimal text of an integer, as an f-string
  renders a Python `int` short enough for the interpreter to convert, together with an independent reader `ParseDecimal`
  and the round trip between them.
- `Appliance` (`appliance.dfy`): the appliance as one datatype with a
  constructor per kind, the two constructors with their defaults, the base and
  overriding consumption computations, the feature add with its argument as a
  sum type (`Absent | Single | Many | Other`), the display string and the
  activation notice.
- `Operate` (`operate.dfy`): the driver as a loop that produces one report
  (`Catatan`) per appliance, and the demonstration scenario with its concrete
  values.

Python integers are unbounded, so `int` models the arithmetic exactly (the
interpreter's limit on converting very long integers to text is not modelled,
see below); no sign precondition is placed on `daya` or `jam` because the program checks neither.

`tambah_fitur` has no `else` branch, so an argument that is neither `None`,
a `str` nor a `list` is silently ignored; the model's `Other` case leaves the
appliance unchanged.

## Model

| member | source | states |
|---|---|---|
| Appliance.NewTelevisi | Polymorphism.py:58-66 | a television is named "Televisi", keeps the given power and screen size, and starts with no features |
| Appliance.NewKulkas | Polymorphism.py:86-94 | a refrigerator is named "Kulkas", keeps the given power and type, and starts with no features |
| Appliance.DefaultConstructors | Polymorphism.py:58-94 | the defaults are ("Televisi", 100 W, no features, "32 inch") and ("Kulkas", 150 W, no features, "2 Pintu") |
| Appliance.HitungKonsumsiDaya | Polymorphism.py:75-82 | a refrigerator consumes exactly the base amount `daya * jam`; a television consumes the base amount plus `20 * jam` |
| Appliance.TelevisiIsBaseWithSpeaker | Polymorphism.py:75-82 | the override extends the base result: a television consumes what a base appliance rated 20 W higher would |
| Appliance.KonsumsiAdditive | Polymorphism.py:24-31 | consumption is additive over periods of use and zero for zero hours, for both kinds |
| Appliance.TambahFitur | Polymorphism.py:33-46 | only the feature list changes; the old features stay as a prefix in order; no argument or an argument of another shape changes nothing; a single string grows the list by one with that string last; a list grows it by its length with the list as the new suffix |
| Appliance.ManyIsRepeatedSingle | Polymorphism.py:43-46 | extending by a list equals appending its elements one at a time as single strings, in order |
| Appliance.ManyThenMany | Polymorphism.py:45-46 | extending by `xs` and then by `ys` equals extending once by `xs + ys` |
| Appliance.InsertionOrderExample | Polymorphism.py:43-46 | adding `["A", "B"]` and then `"C"` appends `A, B, C` in that order |
| Appliance.TambahFiturKeepsBehaviour | Polymorphism.py:33-46 | a feature add never changes the consumption for any number of hours, nor whether the name matches the kind |
| Appliance.ToString | Polymorphism.py:48-54 | the display string is the name, then " (Daya: ", then the canonical decimal text of the power (no leading zeros, '-' only for negatives), which reads back as the power, then "W)" |
| Appliance.ToStringDeterminesDaya | Polymorphism.py:54 | for appliances of the same name, equal display strings hold exactly when the powers are equal |
| Appliance.DefaultTelevisiString | Polymorphism.py:54 | a default television displays as "Televisi (Daya: 100W)" |
| Appliance.Aktifkan | Polymorphism.py:68-101 | the activation notice starts with the name, contains the screen size (television) or the type (refrigerator) after the kind's connecting word " ukuran " or " tipe ", and ends with " telah dihidupkan." |
| Decimal.NatToString | Polymorphism.py:54 | the text of a natural number is a non-empty digit string without leading zeros, starting with '0' exactly for zero |
| Decimal.IntToString | Polymorphism.py:54 | the text of an integer is canonical and starts with '-' exactly when the integer is negative |
| Decimal.NatRoundTrip | Polymorphism.py:54 | reading back the digits of a natural number gives the number |
| Decimal.IntToStringRoundTrip | Polymorphism.py:54 | reading back the text of an integer gives the integer |
| Decimal.IntToStringInjective | Polymorphism.py:54 | two integers have the same text exactly when they are equal |
| Operate.OperasikanAlat | Polymorphism.py:105-117 | the driver makes one report per appliance, in list order, each with the appliance's name, its own kind's notice, its features and its own kind's consumption |
| Operate.DefaultTelevisiNotice | Polymorphism.py:73 | a default television announces "Televisi ukuran 32 inch telah dihidupkan." |
| Operate.DefaultKulkasNotice | Polymorphism.py:101 | a default refrigerator announces "Kulkas tipe 2 Pintu telah dihidupkan." |
| Operate.Demo | Polymorphism.py:121-131 | the demonstration reports the television with its two features and 600 watt-hours, then the refrigerator with its two features and 750 watt-hours, for five hours |

## Left out

- Console output: `aktifkan`, `operasikan_alat` and the "no feature" notice of `tambah_fitur` print; the model returns the text of the activation notice and one report value per appliance instead of printing, and does not model the notice for an absent feature argument, the section header text or the Python rendering of the feature list.
- In-place mutation: `tambah_fitur` mutates the object's list; the model returns an updated value. Aliasing between appliances does not arise because each owns its list.
- `Many` carries strings only: a Python list of non-strings would also be appended by `extend`, but the program annotates the argument as a list of strings.
- The abstract base cannot be instantiated in Python (a `TypeError`); the datatype has no constructor for the base, so the case does not arise.
- The `abc` machinery, run-time `isinstance` dispatch and the `__name__` entry guard are replaced by the closed datatype, the sum-typed argument and the `Demo` method.
- Appliance.ToString: recent CPython interpreters refuse to convert an `int` of more than 4300 decimal digits to text and raise `ValueError`; the model renders every integer, because that limit is a setting of the interpreter rather than of the program.
