/** The check request's form body: `PAYLOAD_TEMPLATE` with `plateChar{i}`
    set to the plate's i-th character. */
module Payload {

  type Form = map<string, string>

  /** Number of `plateChar` slots in the template. */
  const PlateSlots: nat := 7

  function DigitChar(d: nat): char
    requires d < 10
  {
    ('0' as int + d) as char
  }

  /** The number a string of decimal digits denotes, most significant
      digit first. */
  function DigitsValue(s: string): int
    decreases |s|
  {
    if s == [] then 0
    else DigitsValue(s[..|s| - 1]) * 10 + (s[|s| - 1] as int - '0' as int)
  }

  /** `str(n)`: the decimal digits of `n`, with no leading zero. */
  function Decimal(n: nat): (r: string)
    ensures |r| >= 1
    ensures n < 10 <==> |r| == 1
    ensures forall k :: 0 <= k < |r| ==> '0' <= r[k] <= '9'
    ensures |r| > 1 ==> r[0] != '0'
    ensures DigitsValue(r) == n
    decreases n
  {
    if n < 10 then [DigitChar(n)]
    else
      var r := Decimal(n / 10) + [DigitChar(n % 10)];
      assert r[..|r| - 1] == Decimal(n / 10);
      r
  }

  /** Different numbers print differently. */
  lemma {:induction false} DecimalInjective(a: nat, b: nat)
    requires Decimal(a) == Decimal(b)
    ensures a == b
    decreases a
  {
    if a >= 10 && b >= 10 {
      var da, db := Decimal(a), Decimal(b);
      assert da[|da| - 1] == DigitChar(a % 10) && db[|db| - 1] == DigitChar(b % 10);
      assert Decimal(a / 10) == da[..|da| - 1] == db[..|db| - 1] == Decimal(b / 10);
      DecimalInjective(a / 10, b / 10);
    }
  }

  /** The form field `f'plateChar{i}'`. */
  function PlateCharKey(i: nat): string {
    "plateChar" + Decimal(i)
  }

  lemma PlateCharKeyInjective(i: nat, j: nat)
    requires PlateCharKey(i) == PlateCharKey(j)
    ensures i == j
  {
    assert Decimal(i) == PlateCharKey(i)[9..] == PlateCharKey(j)[9..] == Decimal(j);
    DecimalInjective(i, j);
  }

  /** The keys of the first `n` character slots. */
  function CharKeys(n: nat): set<string> {
    set i | 0 <= i < n :: PlateCharKey(i)
  }

  /** The template's seven slot names, written out. */
  lemma SlotKeyNames()
    ensures CharKeys(PlateSlots) ==
      {"plateChar0", "plateChar1", "plateChar2", "plateChar3",
       "plateChar4", "plateChar5", "plateChar6"}
  {
    assert PlateCharKey(0) == "plateChar0" && PlateCharKey(1) == "plateChar1";
    assert PlateCharKey(2) == "plateChar2" && PlateCharKey(3) == "plateChar3";
    assert PlateCharKey(4) == "plateChar4" && PlateCharKey(5) == "plateChar5";
    assert PlateCharKey(6) == "plateChar6";
  }

  /** One more slot adds its own key. */
  lemma CharKeysNext(n: nat)
    ensures CharKeys(n + 1) == CharKeys(n) + {PlateCharKey(n)}
  {
  }

  /** Slot `n` is not among the first `n`. */
  lemma NewSlot(n: nat)
    ensures PlateCharKey(n) !in CharKeys(n)
  {
    if PlateCharKey(n) in CharKeys(n) {
      var i :| 0 <= i < n && PlateCharKey(i) == PlateCharKey(n);
      PlateCharKeyInjective(i, n);
    }
  }

  /** The four fields every request carries unchanged. */
  const FixedFields: Form :=
    map["plateType" := "Z", "plateName" := "California 1960s Legacy",
        "plateLength" := "7", "vehicleType" := "AUTO"]

  /** `PAYLOAD_TEMPLATE`: the fixed fields and seven blank character slots. */
  const Template: Form := FixedFields + map k | k in CharKeys(PlateSlots) :: ""

  /** No fixed field is a character slot: they differ from `plateChar...`
      at index 5. */
  lemma FixedNotSlot(k: string, n: nat)
    requires k in FixedFields
    ensures k !in CharKeys(n)
  {
    assert k[5] != 'C';
    forall i | 0 <= i < n
      ensures PlateCharKey(i) != k
    {
      assert PlateCharKey(i)[5] == 'C';
    }
  }

  /** The payload `update_payload` builds: the template, then slot `i` set
      to `plate[i]` for each index in turn. */
  function PayloadFor(plate: string): (r: Form)
    ensures r.Keys == Template.Keys + CharKeys(|plate|)
    decreases |plate|
  {
    if plate == [] then Template
    else
      var n := |plate| - 1;
      assert CharKeys(n + 1) == CharKeys(n) + {PlateCharKey(n)};
      PayloadFor(plate[..n])[PlateCharKey(n) := [plate[n]]]
  }

  /** The payload of one more character of the plate sets one more slot. */
  lemma PayloadForPrefix(plate: string, i: nat)
    requires i < |plate|
    ensures PayloadFor(plate[..i + 1]) == PayloadFor(plate[..i])[PlateCharKey(i) := [plate[i]]]
  {
    assert plate[..i + 1][..i] == plate[..i];
  }

  /** Slot `i` of the payload holds the plate's i-th character. */
  lemma {:induction false} PayloadSlot(plate: string, i: nat)
    requires i < |plate|
    ensures PayloadFor(plate)[PlateCharKey(i)] == [plate[i]]
    decreases |plate|
  {
    var n := |plate| - 1;
    if i < n {
      if PlateCharKey(i) == PlateCharKey(n) {
        PlateCharKeyInjective(i, n);
      }
      PayloadSlot(plate[..n], i);
    }
  }

  /** Every template field that is not one of the plate's slots keeps its
      template value. */
  lemma {:induction false} PayloadKeeps(plate: string, k: string)
    requires k in Template && k !in CharKeys(|plate|)
    ensures PayloadFor(plate)[k] == Template[k]
    decreases |plate|
  {
    if plate != [] {
      var n := |plate| - 1;
      CharKeysNext(n);
      assert k != PlateCharKey(n);
      PayloadKeeps(plate[..n], k);
    }
  }

  /** The fixed fields always keep their template values: plate type "Z",
      the display name, length "7" and vehicle type "AUTO". */
  lemma PayloadFixedFields(plate: string)
    ensures var r := PayloadFor(plate);
      && r["plateType"] == "Z" && r["plateName"] == "California 1960s Legacy"
      && r["plateLength"] == "7" && r["vehicleType"] == "AUTO"
  {
    PayloadFixed(plate, "plateType");
    PayloadFixed(plate, "plateName");
    PayloadFixed(plate, "plateLength");
    PayloadFixed(plate, "vehicleType");
  }

  lemma PayloadFixed(plate: string, k: string)
    requires k in FixedFields
    ensures PayloadFor(plate)[k] == FixedFields[k]
  {
    FixedNotSlot(k, PlateSlots);
    FixedNotSlot(k, |plate|);
    PayloadKeeps(plate, k);
  }

  /** Slots past the end of the plate stay blank. */
  lemma PayloadBlankSlots(plate: string, i: nat)
    requires |plate| <= i < PlateSlots
    ensures PayloadFor(plate)[PlateCharKey(i)] == ""
  {
    if PlateCharKey(i) in CharKeys(|plate|) {
      var j :| 0 <= j < |plate| && PlateCharKey(j) == PlateCharKey(i);
      PlateCharKeyInjective(i, j);
    }
    assert PlateCharKey(i) in CharKeys(PlateSlots);
    if PlateCharKey(i) in FixedFields {
      FixedNotSlot(PlateCharKey(i), PlateSlots);
    }
    PayloadKeeps(plate, PlateCharKey(i));
  }

  /** A plate of at most seven characters adds no key to the template. */
  lemma PayloadKeysFixed(plate: string)
    requires |plate| <= PlateSlots
    ensures PayloadFor(plate).Keys == Template.Keys
  {
    assert CharKeys(|plate|) <= CharKeys(PlateSlots);
  }

  /** A longer plate adds a key the template does not have, `plateChar7`
      first. */
  lemma PayloadKeysGrow(plate: string)
    requires |plate| > PlateSlots
    ensures PlateCharKey(PlateSlots) in PayloadFor(plate)
    ensures PlateCharKey(PlateSlots) !in Template
  {
    NewSlot(PlateSlots);
    if PlateCharKey(PlateSlots) in FixedFields {
      FixedNotSlot(PlateCharKey(PlateSlots), PlateSlots + 1);
    }
  }
}
