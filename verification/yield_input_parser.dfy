/** `convertToYieldInput` (client/src/utils/convertToBackendFormat.js): turns text such as
    `"crop: Rice, state: Punjab, N: 40"` into a yield-input object. The text is split on
    `,`; each item on `:`; the first two segments, trimmed, are the key and the value.
    The lower-cased key selects one of the sixteen yield-input fields, and a later
    item overwrites an earlier one. `parseFloat` and `parseInt` are kept symbolic: a
    numeric field holds the text that was parsed. */
module YieldInputParser {
  import opened JsText

  /** The sixteen fields of the backend's yield input. */
  datatype Field =
    | Crop | State | Year | N | P | K | PH | SoilType | Rainfall | Temp | Humidity
    | FertilizerType | FertilizerAmount | PesticideAmount | SowingDate | Area

  /** The property name the field is stored under in the produced object. */
  function FieldName(f: Field): string {
    match f
    case Crop => "Crop"
    case State => "State"
    case Year => "Year"
    case N => "N"
    case P => "P"
    case K => "K"
    case PH => "pH"
    case SoilType => "soil_type"
    case Rainfall => "Rainfall"
    case Temp => "Temp"
    case Humidity => "Humidity"
    case FertilizerType => "Fertilizer_Type"
    case FertilizerAmount => "Fertilizer_Amount"
    case PesticideAmount => "Pesticide_Amount"
    case SowingDate => "sowing_date"
    case Area => "area"
  }

  /** The names the produced object can ever carry. */
  function FieldNames(): set<string> {
    {"Crop", "State", "Year", "N", "P", "K", "pH", "soil_type", "Rainfall", "Temp", "Humidity",
     "Fertilizer_Type", "Fertilizer_Amount", "Pesticide_Amount", "sowing_date", "area"}
  }

  /** Distinct fields are stored under distinct names. */
  lemma FieldNameInjective(f: Field, g: Field)
    ensures FieldName(f) == FieldName(g) ==> f == g
  {
  }

  /** The lower-case keys that select each field: an alias table independent of the switch. */
  function Aliases(f: Field): set<string> {
    match f
    case Crop => {"crop"}
    case State => {"state"}
    case Year => {"year"}
    case N => {"n"}
    case P => {"p"}
    case K => {"k"}
    case PH => {"ph"}
    case SoilType => {"soil", "soil_type"}
    case Rainfall => {"rainfall"}
    case Temp => {"temp", "temperature"}
    case Humidity => {"humidity"}
    case FertilizerType => {"fertilizer"}
    case FertilizerAmount => {"fertilizer_amount"}
    case PesticideAmount => {"pesticide_amount"}
    case SowingDate => {"sowing_date"}
    case Area => {"area"}
  }

  /** The `switch (key.toLowerCase())` of the parser: a key selects a field exactly
      when its lower-cased form is one of that field's aliases. */
  function FieldOfKey(key: string): (r: Option<Field>)
    ensures forall f :: r == Some(f) <==> Lower(key) in Aliases(f)
  {
    match Lower(key)
    case "crop" => Some(Crop)
    case "state" => Some(State)
    case "year" => Some(Year)
    case "n" => Some(N)
    case "p" => Some(P)
    case "k" => Some(K)
    case "ph" => Some(PH)
    case "soil" => Some(SoilType)
    case "soil_type" => Some(SoilType)
    case "rainfall" => Some(Rainfall)
    case "temp" => Some(Temp)
    case "temperature" => Some(Temp)
    case "humidity" => Some(Humidity)
    case "fertilizer" => Some(FertilizerType)
    case "fertilizer_amount" => Some(FertilizerAmount)
    case "pesticide_amount" => Some(PesticideAmount)
    case "sowing_date" => Some(SowingDate)
    case "area" => Some(Area)
    case _ => None
  }

  /** Matching ignores case: a key and its lower-cased form select the same field. */
  lemma FieldOfKeyIgnoresCase(key: string)
    ensures FieldOfKey(key) == FieldOfKey(Lower(key))
  {
    LowerIdempotent(key);
  }

  /** What a field holds: `undefined` values (an item without `:`) are kept as `None`. */
  datatype FieldValue =
    | Text(raw: Option<string>)           // assigned verbatim
    | ParsedInt(source: Option<string>)   // parseInt(source)
    | ParsedFloat(source: Option<string>) // parseFloat(source)

  /** The value stored for field `f` when the item's value text is `v`. */
  function Convert(f: Field, v: Option<string>): (fv: FieldValue)
    ensures f in {Crop, State, SoilType, FertilizerType, SowingDate} <==> fv == Text(v)
    ensures f == Year <==> fv == ParsedInt(v)
    ensures f !in {Crop, State, SoilType, FertilizerType, SowingDate, Year} <==> fv == ParsedFloat(v)
  {
    match f
    case Crop => Text(v)
    case State => Text(v)
    case SoilType => Text(v)
    case FertilizerType => Text(v)
    case SowingDate => Text(v)
    case Year => ParsedInt(v)
    case _ => ParsedFloat(v)
  }

  /** `const [key, value] = item.split(":").map((i) => i.trim())`. */
  function KeyValue(item: string): (kv: (string, Option<string>))
    ensures kv.0 == Trim(Split(item, ':')[0])
    ensures kv.1.Some? <==> ':' in item
  {
    var parts := Split(item, ':');
    if ':' !in item then
      SplitNoSeparator(item, ':');
      (Trim(parts[0]), None)
    else
      assert |parts| >= 2 by {
        if |parts| == 1 {
          JoinSplit(item, ':');
        }
      }
      (Trim(parts[0]), Some(Trim(parts[1])))
  }

  /** Segments after the second are ignored: `k:v:rest` gives the trimmed `k` and `v`. */
  lemma KeyValueDropsExtraSegments(k: string, v: string, rest: string)
    requires ':' !in k && ':' !in v
    ensures KeyValue(k + ":" + v + ":" + rest) == (Trim(k), Some(Trim(v)))
  {
    var item := k + ":" + v + ":" + rest;
    assert item == k + [':'] + (v + [':'] + rest);
    SplitAtFirst(k, ':', v + [':'] + rest);
    SplitAtFirst(v, ':', rest);
  }

  /** An item of the form `k:v` gives the trimmed `k` and `v`. */
  lemma KeyValueOfPair(k: string, v: string)
    requires ':' !in k && ':' !in v
    ensures KeyValue(k + ":" + v) == (Trim(k), Some(Trim(v)))
  {
    var item := k + ":" + v;
    assert item == k + [':'] + v;
    SplitAtFirst(k, ':', v);
    SplitNoSeparator(v, ':');
  }

  /** One `key:value` item after classification: the field its key selects, if any,
      and its value text. */
  datatype Entry = Entry(field: Option<Field>, value: Option<string>)

  function ParseItem(item: string): Entry {
    var (key, value) := KeyValue(item);
    Entry(FieldOfKey(key), value)
  }

  /** The object after one assignment of the `switch`. */
  function Store(obj: map<Field, FieldValue>, e: Entry): map<Field, FieldValue> {
    match e.field
    case Some(f) => obj[f := Convert(f, e.value)]
    case None => obj
  }

  /** The object after processing `entries` in order (the `forEach`). */
  function StoreAll(entries: seq<Entry>): map<Field, FieldValue>
  {
    if |entries| == 0 then map[]
    else Store(StoreAll(entries[..|entries| - 1]), entries[|entries| - 1])
  }

  function ParseItems(items: seq<string>): (es: seq<Entry>)
    ensures |es| == |items|
    ensures forall i :: 0 <= i < |items| ==> es[i] == ParseItem(items[i])
  {
    seq(|items|, i requires 0 <= i < |items| => ParseItem(items[i]))
  }

  /** `convertToYieldInput(inputText)`. */
  function ConvertToYieldInput(inputText: string): (obj: map<Field, FieldValue>)
    ensures forall f :: f in obj <==> ItemSelects(Split(inputText, ','), f)
  {
    var items := Split(inputText, ',');
    PresentIffItemSelects(items);
    StoreAll(ParseItems(items))
  }

  /** Some item's key selects field `f`. */
  predicate ItemSelects(items: seq<string>, f: Field) {
    exists k :: 0 <= k < |items| && FieldOfKey(KeyValue(items[k]).0) == Some(f)
  }

  /** The fields of the folded object are exactly those some item selects. */
  lemma PresentIffItemSelects(items: seq<string>)
    ensures forall f :: f in StoreAll(ParseItems(items)) <==> ItemSelects(items, f)
  {
    var es := ParseItems(items);
    forall f
      ensures f in StoreAll(es) <==> ItemSelects(items, f)
    {
      PresentIffSelected(es, f);
      if Selected(es, f) {
        var i :| 0 <= i < |es| && es[i].field == Some(f);
        assert FieldOfKey(KeyValue(items[i]).0) == Some(f);
      }
      if ItemSelects(items, f) {
        var k :| 0 <= k < |items| && FieldOfKey(KeyValue(items[k]).0) == Some(f);
        assert es[k].field == Some(f);
      }
    }
  }

  /** The property names of the produced JavaScript object. */
  function PropertyNames(obj: map<Field, FieldValue>): set<string> {
    set f | f in obj :: FieldName(f)
  }

  /** A produced object (any map from fields) only ever carries yield-input property
      names. */
  lemma PropertyNamesAreYieldInputFields(obj: map<Field, FieldValue>)
    ensures PropertyNames(obj) <= FieldNames()
  {
    forall f | f in obj
      ensures FieldName(f) in FieldNames()
    {
    }
  }

  /** The empty text yields the empty object. */
  lemma EmptyTextGivesEmptyObject()
    ensures ConvertToYieldInput("") == map[]
  {
    assert Split("", ',') == [""];
    assert KeyValue("").0 == "";
    var es := ParseItems([""]);
    assert es[0].field == None;
    assert StoreAll(es) == Store(StoreAll([]), es[0]);
  }

  /** An item whose key is not recognised leaves the object unchanged. */
  lemma UnknownKeyAddsNothing(obj: map<Field, FieldValue>, item: string)
    requires FieldOfKey(KeyValue(item).0).None?
    ensures Store(obj, ParseItem(item)) == obj
  {
  }

  /** One assignment touches at most the field it selects. */
  lemma StoreEffect(obj: map<Field, FieldValue>, e: Entry, f: Field)
    ensures e.field == Some(f) ==>
              f in Store(obj, e) && Store(obj, e)[f] == Convert(f, e.value)
    ensures e.field != Some(f) ==>
              (f in Store(obj, e) <==> f in obj)
              && (f in obj ==> Store(obj, e)[f] == obj[f])
  {
  }

  /** Some entry selects field `f`. */
  predicate Selected(entries: seq<Entry>, f: Field) {
    exists i :: 0 <= i < |entries| && entries[i].field == Some(f)
  }

  /** Entry `j` is the last entry selecting field `f`. */
  predicate LastSelecting(entries: seq<Entry>, j: int, f: Field) {
    0 <= j < |entries| && entries[j].field == Some(f)
    && forall k :: j < k < |entries| ==> entries[k].field != Some(f)
  }

  /** Field `f` is present exactly when some entry selects it. */
  lemma {:induction false} PresentIffSelected(entries: seq<Entry>, f: Field)
    ensures f in StoreAll(entries) <==> Selected(entries, f)
    decreases |entries|
  {
    if |entries| > 0 {
      var n := |entries| - 1;
      var init := entries[..n];
      var last := entries[n];
      PresentIffSelected(init, f);
      assert StoreAll(entries) == Store(StoreAll(init), last);
      if last.field == Some(f) {
        assert Selected(entries, f);
      } else {
        assert f in StoreAll(entries) <==> f in StoreAll(init);
        assert forall i :: 0 <= i < n ==> init[i] == entries[i];
      }
    }
  }

  /** Last-wins: the field holds the converted value of the LAST entry selecting it. */
  lemma {:induction false} LastWins(entries: seq<Entry>, j: int, f: Field)
    requires LastSelecting(entries, j, f)
    ensures f in StoreAll(entries)
    ensures StoreAll(entries)[f] == Convert(f, entries[j].value)
    decreases |entries|
  {
    var n := |entries| - 1;
    var init := entries[..n];
    var last := entries[n];
    assert StoreAll(entries) == Store(StoreAll(init), last);
    if j < n {
      assert init[j] == entries[j];
      assert LastSelecting(init, j, f);
      LastWins(init, j, f);
    }
  }

  /** Last-wins on the input text: the field is present iff some item's key selects it,
      and it holds the converted value of the last item that selects it. */
  lemma LastItemWins(inputText: string, f: Field, j: nat)
    requires var items := Split(inputText, ',');
             j < |items| && FieldOfKey(KeyValue(items[j]).0) == Some(f)
             && forall k :: j < k < |items| ==> FieldOfKey(KeyValue(items[k]).0) != Some(f)
    ensures f in ConvertToYieldInput(inputText)
    ensures ConvertToYieldInput(inputText)[f] == Convert(f, KeyValue(Split(inputText, ',')[j]).1)
  {
    var items := Split(inputText, ',');
    assert LastSelecting(ParseItems(items), j, f);
    LastWins(ParseItems(items), j, f);
  }

  /** A field absent from the output had no item selecting it. */
  lemma AbsentFieldHadNoItem(inputText: string, f: Field)
    requires f !in ConvertToYieldInput(inputText)
    ensures forall k :: 0 <= k < |Split(inputText, ',')| ==> FieldOfKey(KeyValue(Split(inputText, ',')[k]).0) != Some(f)
  {
    var items := Split(inputText, ',');
    PresentIffSelected(ParseItems(items), f);
  }

  /** Lower-casing leaves a key without upper-case ASCII letters as it is. */
  lemma LowerOfLowerCase(s: string)
    requires forall i :: 0 <= i < |s| ==> !('A' <= s[i] <= 'Z')
    ensures Lower(s) == s
  {
  }

  /** A key already in canonical form (trimmed, lower-case, colon-free) followed by
      `:v` selects the field `FieldOfKey(key)` with the trimmed `v`. */
  lemma ParseCanonicalItem(key: string, v: string)
    requires ':' !in key && ':' !in v
    requires forall i :: 0 <= i < |key| ==> !IsWhitespace(key[i]) && !('A' <= key[i] <= 'Z')
    ensures ParseItem(key + ":" + v) == Entry(FieldOfKey(key), Some(Trim(v)))
  {
    KeyValueOfPair(key, v);
    LowerOfLowerCase(key);
    TrimClean(key);
  }

  /** The aliases: `soil` and `soil_type` both select `soil_type`, `temp` and
      `temperature` both select `Temp`, and `fertilizer` selects `Fertilizer_Type` (the
      type, not the amount). With `ParseCanonicalItem`, `soil:x` and `soil_type:x` give
      the same entry. */
  lemma KeyAliases()
    ensures FieldOfKey("soil") == FieldOfKey("soil_type") == Some(SoilType)
    ensures FieldOfKey("temp") == FieldOfKey("temperature") == Some(Temp)
    ensures FieldOfKey("fertilizer") == Some(FertilizerType)
  {
    LowerOfLowerCase("soil");
    LowerOfLowerCase("soil_type");
    LowerOfLowerCase("temp");
    LowerOfLowerCase("temperature");
    LowerOfLowerCase("fertilizer");
  }
}
