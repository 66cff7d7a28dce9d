/**
 * Locale selection and text lookup (core/src/i18n/loader.rs). Every lookup
 * falls back to the key it was given; lower-casing is ASCII only.
 */
module I18n {
  import opened Wrappers
  import opened Strings

  datatype Locale = English | Japanese {
    /** `Locale::code`: a two-letter code, already in lower case. */
    function Code(): (code: string)
      ensures |code| == 2 && AsciiLower(code) == code
    {
      match this
      case English => assert AsciiLower("en") == "en" by { assert "en"[1..] == "n"; } "en"
      case Japanese => assert AsciiLower("ja") == "ja" by { assert "ja"[1..] == "a"; } "ja"
    }
  }

  /** `#[default]`. */
  const DefaultLocale: Locale := English

  /**
   * `Locale::from_code`: a code is understood exactly when its lower-case
   * form is one of the five known spellings.
   */
  function FromCode(code: string): (l: Option<Locale>)
    ensures l == Some(English) <==> AsciiLower(code) in ["en", "english"]
    ensures l == Some(Japanese) <==> AsciiLower(code) in ["ja", "jp", "japanese"]
    ensures l.None? <==> AsciiLower(code) !in ["en", "english", "ja", "jp", "japanese"]
  {
    var c := AsciiLower(code);
    if c == "en" || c == "english" then Some(English)
    else if c == "ja" || c == "jp" || c == "japanese" then Some(Japanese)
    else None
  }

  /** Reading a locale's own code gives the locale back. */
  lemma CodeRoundTrip(l: Locale)
    ensures FromCode(l.Code()) == Some(l)
  {
  }

  /** The code of a locale determines it. */
  lemma CodeInjective(l1: Locale, l2: Locale)
    requires l1.Code() == l2.Code()
    ensures l1 == l2
  {
    CodeRoundTrip(l1);
    CodeRoundTrip(l2);
  }

  /** Two codes that differ only in the case of ASCII letters name the same locale. */
  lemma FromCodeIgnoresCase(a: string, b: string)
    requires AsciiLower(a) == AsciiLower(b)
    ensures FromCode(a) == FromCode(b)
  {
  }

  /** Upper-case spellings are understood. */
  lemma FromCodeUpperCase()
    ensures FromCode("EN") == Some(English)
    ensures FromCode("JP") == Some(Japanese)
  {
    assert AsciiLower("EN") == "en" by {
      assert "EN"[1..] == "N";
    }
    assert AsciiLower("JP") == "jp" by {
      assert "JP"[1..] == "P";
    }
  }

  /** An unknown code names no locale. */
  lemma FromCodeUnknown()
    ensures FromCode("fr") == None
    ensures FromCode("") == None
  {
    assert AsciiLower("fr") == "fr" by {
      assert "fr"[1..] == "r";
    }
  }

  /** The four text tables of a locale file. */
  datatype Localizer = Localizer(
    items: map<string, string>,
    machines: map<string, string>,
    ui: map<string, string>,
    readings: map<string, string>)

  /** `Localizer::empty`: every table empty, so every lookup falls back. */
  function Empty(): (e: Localizer)
    ensures forall key :: GetItem(e, key) == key
    ensures forall key :: GetReading(e, key) == key
    ensures forall key :: GetMachine(e, key) == key
    ensures forall key :: GetUi(e, key) == key
  {
    Localizer(map[], map[], map[], map[])
  }

  /** A table entry, or the key itself when the table has none (`get().cloned().unwrap_or_else`). */
  function Lookup(table: map<string, string>, key: string): (text: string)
    ensures key in table ==> text == table[key]
    ensures key !in table ==> text == key
  {
    if key in table then table[key] else key
  }

  /** `get_item`. */
  function GetItem(l: Localizer, itemId: string): (text: string)
    ensures itemId in l.items ==> text == l.items[itemId]
    ensures itemId !in l.items ==> text == itemId
  {
    Lookup(l.items, itemId)
  }

  /** `get_reading`: falls back to the item id, not to the item's localized name. */
  function GetReading(l: Localizer, itemId: string): (text: string)
    ensures itemId in l.readings ==> text == l.readings[itemId]
    ensures itemId !in l.readings ==> text == itemId
  {
    Lookup(l.readings, itemId)
  }

  /** `get_machine`. */
  function GetMachine(l: Localizer, machineId: string): (text: string)
    ensures machineId in l.machines ==> text == l.machines[machineId]
    ensures machineId !in l.machines ==> text == machineId
  {
    Lookup(l.machines, machineId)
  }

  /** `get_ui`. */
  function GetUi(l: Localizer, key: string): (text: string)
    ensures key in l.ui ==> text == l.ui[key]
    ensures key !in l.ui ==> text == key
  {
    Lookup(l.ui, key)
  }

  /**
   * Each getter reads its own table only: the result is the entry when
   * there is one, and the key otherwise, whatever the other tables hold.
   */
  lemma GettersReadOwnTable(l: Localizer, other: Localizer, key: string)
    ensures l.items == other.items ==> GetItem(l, key) == GetItem(other, key)
    ensures l.readings == other.readings ==> GetReading(l, key) == GetReading(other, key)
    ensures l.machines == other.machines ==> GetMachine(l, key) == GetMachine(other, key)
    ensures l.ui == other.ui ==> GetUi(l, key) == GetUi(other, key)
  {
  }

  /** Without a reading, an item's reading is its id even when the item has a translated name. */
  lemma ReadingFallsBackToId(l: Localizer, itemId: string)
    requires itemId !in l.readings && itemId in l.items
    ensures GetReading(l, itemId) == itemId
    ensures GetItem(l, itemId) == l.items[itemId]
  {
  }
}
