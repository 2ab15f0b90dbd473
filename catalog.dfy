/** The bot's static catalog: three package tables, one per deal type, each
    mapping a package key to a (label, price) pair, and the menus built
    from them. */
module Catalog {
  import opened Wrappers

  /** A package as the bot stores it: the label shown on its button and its
      price in Kenyan shillings. */
  datatype Package = Package(text: string, price: int)

  /** One key/value pair of a package table. */
  datatype Entry = Entry(key: string, package: Package)

  /** A package table in the order its dictionary literal lists it; Python
      dictionaries iterate in insertion order, so this is also menu order. */
  type Table = seq<Entry>

  /** An inline button: the text it shows and the callback data it sends. */
  datatype Button = Button(text: string, callbackData: string)

  // Each label is written as three literals split around its "Ksh <price>"
  // part; the concatenation spells the label exactly as the table does, and
  // the split lets the verifier find the price without walking the whole
  // literal character by character.
  const Data6 := Entry("data_6", Package("1GB @ " + "Ksh 19" + " (valid for 1 hour)", 19))
  const Data3 := Entry("data_3", Package("1.5GB @ " + "Ksh 50" + " (valid for 3 hours)", 50))
  const Data1 := Entry("data_1", Package("1.25GB @ " + "Ksh 55" + " (valid till midnight)", 55))
  const Data4 := Entry("data_4", Package("350MB @ " + "Ksh 49" + " (valid for 7 days)", 49))
  const Data2 := Entry("data_2", Package("2.5GB @ " + "Ksh 300" + " (valid for 7 days)", 300))
  const Data5 := Entry("data_5", Package("6GB @ " + "Ksh 700" + " (valid for 7 days)", 700))
  const Data7 := Entry("data_7", Package("250MB @ " + "Ksh 20" + " (valid for 24 hours)", 20))
  const Data8 := Entry("data_8", Package("1GB @ " + "Ksh 99" + " (valid for 24 hours)", 99))
  const DataPackages: Table := [Data6, Data3, Data1, Data4, Data2, Data5, Data7, Data8]

  const Sms3 := Entry("sms_3", Package("20 SMS @ " + "Ksh 5" + " (valid for 24 hours)", 5))
  const Sms2 := Entry("sms_2", Package("200 SMS @ " + "Ksh 10" + " (valid for 24 hours)", 10))
  const Sms1 := Entry("sms_1", Package("1000 SMS @ " + "Ksh 30" + " (valid for 7 days)", 30))
  const SmsPackages: Table := [Sms3, Sms2, Sms1]

  const Min1 := Entry("min_1", Package("34MIN @ " + "Ksh 18" + " (expiry: midnight)", 18))
  const Min2 := Entry("min_2", Package("50MIN @ " + "Ksh 51", 51))
  const Min3 := Entry("min_3", Package("100MIN @ " + "Ksh 102" + " (valid for 2 days)", 102))
  const Min4 := Entry("min_4", Package("200MIN @ " + "Ksh 250", 250))
  const MinutesPackages: Table := [Min1, Min2, Min3, Min4]

  /** The callback data of the cancel button appended to every deals menu. */
  const CancelKey := "cancel_purchase"
  const CancelButton := Button("Cancel Purchase", CancelKey)

  /** The deal-type menu that /menu shows, one button per deal type. */
  const DealTypeButtons: seq<Button> := [
    Button("Data Deals", "data"),
    Button("SMS Deals", "sms"),
    Button("Minutes Deals", "minutes")
  ]

  /** Every package of every table, data first. */
  function AllEntries(): Table {
    DataPackages + SmsPackages + MinutesPackages
  }

  const DataPrefix := "data_"
  const SmsPrefix := "sms_"
  const MinutesPrefix := "min_"

  /** The key prefix every key of a deal type's table carries. */
  function KeyPrefix(dealType: string): (prefix: Option<string>)
    ensures prefix.Some? <==> dealType in {"data", "sms", "minutes"}
    ensures dealType == "data" ==> prefix == Some(DataPrefix)
    ensures dealType == "sms" ==> prefix == Some(SmsPrefix)
    ensures dealType == "minutes" ==> prefix == Some(MinutesPrefix)
  {
    if dealType == "data" then Some(DataPrefix)
    else if dealType == "sms" then Some(SmsPrefix)
    else if dealType == "minutes" then Some(MinutesPrefix)
    else None
  }

  /** The table a deal type selects, or None for a deal type the bot's
      if/elif chains do not know. */
  function TableFor(dealType: string): (t: Option<Table>)
    ensures t.Some? <==> dealType in {"data", "sms", "minutes"}
    ensures dealType == "data" ==> t == Some(DataPackages)
    ensures dealType == "sms" ==> t == Some(SmsPackages)
    ensures dealType == "minutes" ==> t == Some(MinutesPackages)
  {
    if dealType == "data" then Some(DataPackages)
    else if dealType == "sms" then Some(SmsPackages)
    else if dealType == "minutes" then Some(MinutesPackages)
    else None
  }

  /** Dictionary subscription `table[key]`: the package stored under `key`,
      or None where Python raises KeyError. It takes the first entry with
      the key, where a dict literal with a repeated key keeps the last; the
      two agree on the bot's tables, whose keys CatalogKeysDistinct shows to
      be distinct. */
  function Lookup(t: Table, key: string): (r: Option<Package>)
    ensures r.Some? <==> exists e :: e in t && e.key == key
    ensures r.Some? ==> Entry(key, r.value) in t
  {
    if t == [] then None
    else if t[0].key == key then Some(t[0].package)
    else Lookup(t[1..], key)
  }

  /** The list comprehension that turns a table into one button per
      package, labelled with the package label and keyed by its key. */
  function PackageButtons(t: Table): (b: seq<Button>)
    ensures |b| == |t|
    ensures forall i :: 0 <= i < |t| ==> b[i] == Button(t[i].package.text, t[i].key)
  {
    if t == [] then [] else [Button(t[0].package.text, t[0].key)] + PackageButtons(t[1..])
  }

  // ---------------------------------------------------------------------
  // Catalog invariants

  predicate IsDigit(c: char) { '0' <= c <= '9' }

  function DigitValue(c: char): nat
    requires IsDigit(c)
  {
    c as int - '0' as int
  }

  /** The number the n characters of text from index start spell in decimal. */
  function DigitsValue(text: string, start: nat, n: nat): (v: nat)
    requires start + n <= |text|
    requires forall k :: start <= k < start + n ==> IsDigit(text[k])
  {
    if n == 0 then 0
    else 10 * DigitsValue(text, start, n - 1) + DigitValue(text[start + n - 1])
  }

  /** The label reads "Ksh " at index i. */
  predicate KshAt(text: string, i: nat) {
    i + 4 <= |text| && text[i] == 'K' && text[i + 1] == 's' && text[i + 2] == 'h' && text[i + 3] == ' '
  }

  /** No digit continues a numeral that ends just before index j. */
  predicate EndsNumeral(text: string, j: nat) {
    j == |text| || (j < |text| && !IsDigit(text[j]))
  }

  /** The label reads "Ksh " at index i, followed by a numeral of exactly n
      digits that spells price. */
  predicate PriceAt(text: string, price: int, i: nat, n: nat) {
    KshAt(text, i) && n > 0 && i + 4 + n <= |text| &&
    (forall k :: i + 4 <= k < i + 4 + n ==> IsDigit(text[k])) &&
    EndsNumeral(text, i + 4 + n) &&
    DigitsValue(text, i + 4, n) == price
  }

  /** The label names the price after a "Ksh ", and every amount it names
      after a "Ksh " is that price. */
  ghost predicate ShowsPrice(text: string, price: int) {
    (exists i: nat, n: nat :: PriceAt(text, price, i, n)) &&
    (forall p: int, i: nat, n: nat :: PriceAt(text, p, i, n) ==> p == price)
  }

  /** The label contains no 'K' other than the one at index i. */
  predicate OnlyKAt(text: string, i: nat) {
    forall k :: 0 <= k < |text| && text[k] == 'K' ==> k == i
  }

  predicate HasPrefix(s: string, prefix: string) {
    |prefix| <= |s| && forall k :: 0 <= k < |prefix| ==> s[k] == prefix[k]
  }

  /** No two entries of the table share a key. */
  predicate KeysDistinct(t: Table) {
    forall i, j :: 0 <= i < j < |t| ==> t[i].key != t[j].key
  }

  /** What the catalog promises of one package: a positive price, a label
      that shows that price, and a key that carries its table's prefix. */
  ghost predicate EntryWellFormed(e: Entry, prefix: string) {
    e.package.price > 0 && ShowsPrice(e.package.text, e.package.price) && HasPrefix(e.key, prefix)
  }

  ghost predicate WellFormed(t: Table, prefix: string) {
    forall e :: e in t ==> EntryWellFormed(e, prefix)
  }

  /** The package is one of the catalog's. */
  ghost predicate InCatalog(p: Package) {
    exists e :: e in AllEntries() && e.package == p
  }

  /** A label whose only 'K' starts the "Ksh " at index i, followed there by
      a numeral spelling price, shows price and no other amount. */
  lemma LabelShowsPrice(text: string, price: int, i: nat, n: nat)
    requires PriceAt(text, price, i, n) && OnlyKAt(text, i)
    ensures ShowsPrice(text, price)
  {
    forall p: int, i2: nat, n2: nat | PriceAt(text, p, i2, n2)
      ensures p == price
    {
      assert i2 == i;
    }
  }

  lemma ReadsOneDigit(text: string, i: nat)
    requires KshAt(text, i) && i + 5 <= |text|
    requires IsDigit(text[i + 4]) && EndsNumeral(text, i + 5)
    ensures PriceAt(text, DigitValue(text[i + 4]), i, 1)
  {
  }

  lemma ReadsTwoDigits(text: string, i: nat)
    requires KshAt(text, i) && i + 6 <= |text|
    requires IsDigit(text[i + 4]) && IsDigit(text[i + 5]) && EndsNumeral(text, i + 6)
    ensures PriceAt(text, 10 * DigitValue(text[i + 4]) + DigitValue(text[i + 5]), i, 2)
  {
    assert DigitsValue(text, i + 4, 1) == DigitValue(text[i + 4]);
  }

  lemma ReadsThreeDigits(text: string, i: nat)
    requires KshAt(text, i) && i + 7 <= |text|
    requires IsDigit(text[i + 4]) && IsDigit(text[i + 5]) && IsDigit(text[i + 6])
    requires EndsNumeral(text, i + 7)
    ensures PriceAt(text, 100 * DigitValue(text[i + 4]) + 10 * DigitValue(text[i + 5]) + DigitValue(text[i + 6]), i, 3)
  {
    assert DigitsValue(text, i + 4, 1) == DigitValue(text[i + 4]);
    assert DigitsValue(text, i + 4, 2) == 10 * DigitValue(text[i + 4]) + DigitValue(text[i + 5]);
  }

  lemma Data6WellFormed()
    ensures EntryWellFormed(Data6, DataPrefix)
  {
    var text := Data6.package.text;
    assert KshAt(text, 6);
    assert text[10] == '1' && text[11] == '9';
    assert EndsNumeral(text, 12);
    ReadsTwoDigits(text, 6);
    LabelShowsPrice(text, Data6.package.price, 6, 2);
  }

  lemma Data3WellFormed()
    ensures EntryWellFormed(Data3, DataPrefix)
  {
    var text := Data3.package.text;
    assert KshAt(text, 8);
    assert text[12] == '5' && text[13] == '0';
    assert EndsNumeral(text, 14);
    ReadsTwoDigits(text, 8);
    LabelShowsPrice(text, Data3.package.price, 8, 2);
  }

  lemma Data1WellFormed()
    ensures EntryWellFormed(Data1, DataPrefix)
  {
    var text := Data1.package.text;
    assert KshAt(text, 9);
    assert text[13] == '5' && text[14] == '5';
    assert EndsNumeral(text, 15);
    ReadsTwoDigits(text, 9);
    LabelShowsPrice(text, Data1.package.price, 9, 2);
  }

  lemma Data4WellFormed()
    ensures EntryWellFormed(Data4, DataPrefix)
  {
    var text := Data4.package.text;
    assert KshAt(text, 8);
    assert text[12] == '4' && text[13] == '9';
    assert EndsNumeral(text, 14);
    ReadsTwoDigits(text, 8);
    LabelShowsPrice(text, Data4.package.price, 8, 2);
  }

  lemma Data2WellFormed()
    ensures EntryWellFormed(Data2, DataPrefix)
  {
    var text := Data2.package.text;
    assert KshAt(text, 8);
    assert text[12] == '3' && text[13] == '0' && text[14] == '0';
    assert EndsNumeral(text, 15);
    ReadsThreeDigits(text, 8);
    LabelShowsPrice(text, Data2.package.price, 8, 3);
  }

  lemma Data5WellFormed()
    ensures EntryWellFormed(Data5, DataPrefix)
  {
    var text := Data5.package.text;
    assert KshAt(text, 6);
    assert text[10] == '7' && text[11] == '0' && text[12] == '0';
    assert EndsNumeral(text, 13);
    ReadsThreeDigits(text, 6);
    LabelShowsPrice(text, Data5.package.price, 6, 3);
  }

  lemma Data7WellFormed()
    ensures EntryWellFormed(Data7, DataPrefix)
  {
    var text := Data7.package.text;
    assert KshAt(text, 8);
    assert text[12] == '2' && text[13] == '0';
    assert EndsNumeral(text, 14);
    ReadsTwoDigits(text, 8);
    LabelShowsPrice(text, Data7.package.price, 8, 2);
  }

  lemma Data8WellFormed()
    ensures EntryWellFormed(Data8, DataPrefix)
  {
    var text := Data8.package.text;
    assert KshAt(text, 6);
    assert text[10] == '9' && text[11] == '9';
    assert EndsNumeral(text, 12);
    ReadsTwoDigits(text, 6);
    LabelShowsPrice(text, Data8.package.price, 6, 2);
  }

  lemma Sms3WellFormed()
    ensures EntryWellFormed(Sms3, SmsPrefix)
  {
    var text := Sms3.package.text;
    assert KshAt(text, 9);
    assert text[13] == '5';
    assert EndsNumeral(text, 14);
    ReadsOneDigit(text, 9);
    LabelShowsPrice(text, Sms3.package.price, 9, 1);
  }

  lemma Sms2WellFormed()
    ensures EntryWellFormed(Sms2, SmsPrefix)
  {
    var text := Sms2.package.text;
    assert KshAt(text, 10);
    assert text[14] == '1' && text[15] == '0';
    assert EndsNumeral(text, 16);
    ReadsTwoDigits(text, 10);
    LabelShowsPrice(text, Sms2.package.price, 10, 2);
  }

  lemma Sms1WellFormed()
    ensures EntryWellFormed(Sms1, SmsPrefix)
  {
    var text := Sms1.package.text;
    assert KshAt(text, 11);
    assert text[15] == '3' && text[16] == '0';
    assert EndsNumeral(text, 17);
    ReadsTwoDigits(text, 11);
    LabelShowsPrice(text, Sms1.package.price, 11, 2);
  }

  lemma Min1WellFormed()
    ensures EntryWellFormed(Min1, MinutesPrefix)
  {
    var text := Min1.package.text;
    assert KshAt(text, 8);
    assert text[12] == '1' && text[13] == '8';
    assert EndsNumeral(text, 14);
    ReadsTwoDigits(text, 8);
    LabelShowsPrice(text, Min1.package.price, 8, 2);
  }

  lemma Min2WellFormed()
    ensures EntryWellFormed(Min2, MinutesPrefix)
  {
    var text := Min2.package.text;
    assert KshAt(text, 8);
    assert text[12] == '5' && text[13] == '1';
    assert EndsNumeral(text, 14);
    ReadsTwoDigits(text, 8);
    LabelShowsPrice(text, Min2.package.price, 8, 2);
  }

  lemma Min3WellFormed()
    ensures EntryWellFormed(Min3, MinutesPrefix)
  {
    var text := Min3.package.text;
    assert KshAt(text, 9);
    assert text[13] == '1' && text[14] == '0' && text[15] == '2';
    assert EndsNumeral(text, 16);
    ReadsThreeDigits(text, 9);
    LabelShowsPrice(text, Min3.package.price, 9, 3);
  }

  lemma Min4WellFormed()
    ensures EntryWellFormed(Min4, MinutesPrefix)
  {
    var text := Min4.package.text;
    assert KshAt(text, 9);
    assert text[13] == '2' && text[14] == '5' && text[15] == '0';
    assert EndsNumeral(text, 16);
    ReadsThreeDigits(text, 9);
    LabelShowsPrice(text, Min4.package.price, 9, 3);
  }

  lemma DataWellFormed()
    ensures WellFormed(DataPackages, DataPrefix)
  {
    forall e | e in DataPackages
      ensures EntryWellFormed(e, DataPrefix)
    {
      if e == Data6 { Data6WellFormed();
      } else if e == Data3 { Data3WellFormed();
      } else if e == Data1 { Data1WellFormed();
      } else if e == Data4 { Data4WellFormed();
      } else if e == Data2 { Data2WellFormed();
      } else if e == Data5 { Data5WellFormed();
      } else if e == Data7 { Data7WellFormed();
      } else if e == Data8 { Data8WellFormed(); }
    }
  }

  lemma SmsWellFormed()
    ensures WellFormed(SmsPackages, SmsPrefix)
  {
    forall e | e in SmsPackages
      ensures EntryWellFormed(e, SmsPrefix)
    {
      if e == Sms3 { Sms3WellFormed();
      } else if e == Sms2 { Sms2WellFormed();
      } else if e == Sms1 { Sms1WellFormed(); }
    }
  }

  lemma MinutesWellFormed()
    ensures WellFormed(MinutesPackages, MinutesPrefix)
  {
    forall e | e in MinutesPackages
      ensures EntryWellFormed(e, MinutesPrefix)
    {
      if e == Min1 { Min1WellFormed();
      } else if e == Min2 { Min2WellFormed();
      } else if e == Min3 { Min3WellFormed();
      } else if e == Min4 { Min4WellFormed(); }
    }
  }

  lemma DataKeysDistinct()
    ensures KeysDistinct(DataPackages)
  {
  }

  lemma SmsKeysDistinct()
    ensures KeysDistinct(SmsPackages)
  {
  }

  lemma MinutesKeysDistinct()
    ensures KeysDistinct(MinutesPackages)
  {
  }

  /** Two tables whose keys are distinct within each stay distinct side by
      side when no key of the first starts with the character every key of
      the second starts with. */
  lemma {:induction false} KeysDistinctAppend(t1: Table, t2: Table, c: char)
    requires KeysDistinct(t1) && KeysDistinct(t2)
    requires forall e :: e in t1 ==> e.key == [] || e.key[0] != c
    requires forall e :: e in t2 ==> e.key != [] && e.key[0] == c
    ensures KeysDistinct(t1 + t2)
  {
    var t := t1 + t2;
    forall i, j | 0 <= i < j < |t|
      ensures t[i].key != t[j].key
    {
      if j < |t1| {
        assert t[i] == t1[i] && t[j] == t1[j];
      } else if i >= |t1| {
        assert t[i] == t2[i - |t1|] && t[j] == t2[j - |t1|];
      } else {
        assert t[i] in t1 && t[j] in t2;
      }
    }
  }

  /** Package keys are unique across the whole catalog, so a key alone
      names a package. */
  lemma CatalogKeysDistinct()
    ensures KeysDistinct(AllEntries())
  {
    DataWellFormed(); SmsWellFormed(); MinutesWellFormed();
    DataKeysDistinct(); SmsKeysDistinct(); MinutesKeysDistinct();
    KeysDistinctAppend(DataPackages, SmsPackages, 's');
    forall e | e in DataPackages + SmsPackages
      ensures e.key == [] || e.key[0] != 'm'
    {
      if e in DataPackages { assert EntryWellFormed(e, DataPrefix); }
      else { assert EntryWellFormed(e, SmsPrefix); }
    }
    KeysDistinctAppend(DataPackages + SmsPackages, MinutesPackages, 'm');
  }

  /** The cancel button's callback data is not a package key of any table. */
  lemma CancelKeyNotInCatalog()
    ensures forall e :: e in AllEntries() ==> e.key != CancelKey
    ensures forall d :: TableFor(d).Some? ==> Lookup(TableFor(d).value, CancelKey) == None
  {
    DataWellFormed(); SmsWellFormed(); MinutesWellFormed();
    forall e | e in AllEntries()
      ensures e.key != CancelKey
    {
      if e in DataPackages { assert EntryWellFormed(e, DataPrefix); }
      else if e in SmsPackages { assert EntryWellFormed(e, SmsPrefix); }
      else { assert EntryWellFormed(e, MinutesPrefix); }
    }
  }

  /** In a table without repeated keys, subscription finds the package
      stored under the key. */
  lemma {:induction false} LookupFindsEntry(t: Table, key: string, p: Package)
    requires KeysDistinct(t)
    requires Entry(key, p) in t
    ensures Lookup(t, key) == Some(p)
  {
    if t[0] != Entry(key, p) {
      assert t[0].key != key by {
        var j :| 0 <= j < |t| && t[j] == Entry(key, p);
      }
      assert KeysDistinct(t[1..]) by {
        forall i, j | 0 <= i < j < |t[1..]| ensures t[1..][i].key != t[1..][j].key {
          assert t[1..][i] == t[i + 1] && t[1..][j] == t[j + 1];
        }
      }
      LookupFindsEntry(t[1..], key, p);
    }
  }

  /** Whatever a known deal type's table yields is a catalog package with a
      positive price that its label shows. */
  lemma LookupInCatalog(dealType: string, key: string)
    requires TableFor(dealType).Some?
    requires Lookup(TableFor(dealType).value, key).Some?
    ensures var p := Lookup(TableFor(dealType).value, key).value;
      InCatalog(p) && p.price > 0 && ShowsPrice(p.text, p.price)
  {
    var t := TableFor(dealType).value;
    var p := Lookup(t, key).value;
    DataWellFormed(); SmsWellFormed(); MinutesWellFormed();
    assert Entry(key, p) in t;
    assert Entry(key, p) in AllEntries();
    var prefix := KeyPrefix(dealType).value;
    assert EntryWellFormed(Entry(key, p), prefix);
  }

  /** Pressing the i-th package button of a deal type's menu selects
      exactly the package that button shows: the menu and the lookup agree. */
  lemma MenuSelectsShownPackage(dealType: string, i: nat)
    requires TableFor(dealType).Some?
    requires i < |TableFor(dealType).value|
    ensures var t := TableFor(dealType).value;
      Lookup(t, PackageButtons(t)[i].callbackData) == Some(t[i].package)
  {
    var t := TableFor(dealType).value;
    DataKeysDistinct(); SmsKeysDistinct(); MinutesKeysDistinct();
    assert t[i] == Entry(t[i].key, t[i].package);
    LookupFindsEntry(t, t[i].key, t[i].package);
  }

  /** Every catalog package has a positive price that its label shows. */
  lemma CatalogPricesPositive(p: Package)
    requires InCatalog(p)
    ensures p.price > 0 && ShowsPrice(p.text, p.price)
  {
    DataWellFormed(); SmsWellFormed(); MinutesWellFormed();
    var e :| e in AllEntries() && e.package == p;
    if e in DataPackages { assert EntryWellFormed(e, DataPrefix); }
    else if e in SmsPackages { assert EntryWellFormed(e, SmsPrefix); }
    else { assert EntryWellFormed(e, MinutesPrefix); }
  }

  /** The /menu buttons offer exactly the deal types that have a table. */
  lemma DealTypeButtonsMatchTables(dealType: string)
    ensures TableFor(dealType).Some? <==> exists b :: b in DealTypeButtons && b.callbackData == dealType
  {
  }
}
