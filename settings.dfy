/**
 * The settings store: a key/value map loaded from a JSON file at start-up,
 * falling back to five defaults when the file is missing or unreadable.
 */
module Settings {

  /** The JSON scalars a setting can hold (`None`/`null`, a string or an integer). */
  datatype Setting = Null | Text(text: string) | Number(number: int)

  /** Python truthiness of a setting: `None`, `""` and `0` are false. */
  predicate Truthy(v: Setting) {
    match v
    case Null => false
    case Text(s) => s != ""
    case Number(n) => n != 0
  }

  /** The five entries used when no settings file can be read. */
  function DefaultSettings(): map<string, Setting> {
    map[
      "last_spreadsheet" := Text("음성기록"),
      "last_sheet" := Text("시트1"),
      "last_cell" := Text("A1"),
      "last_row" := Number(1),
      "last_col" := Number(1)
    ]
  }

  /** What reading the settings file produced. */
  datatype SettingsFile = Missing | Unreadable | Parsed(contents: map<string, Setting>)

  /** The loaded map: the file's contents, or the defaults when it is missing or fails to load. */
  function LoadSettings(file: SettingsFile): (m: map<string, Setting>)
    ensures file.Parsed? ==> m == file.contents
    ensures !file.Parsed? ==> m == DefaultSettings()
  {
    match file
    case Parsed(contents) => contents
    case _ => DefaultSettings()
  }

  /** `dict.get(key, default)`. */
  function Lookup(m: map<string, Setting>, key: string, default: Setting): Setting {
    if key in m then m[key] else default
  }

  /** A missing or unreadable file yields exactly the five defaults. */
  lemma DefaultsWhenUnreadable(file: SettingsFile, default: Setting)
    requires !file.Parsed?
    ensures LoadSettings(file).Keys == {"last_spreadsheet", "last_sheet", "last_cell", "last_row", "last_col"}
    ensures |LoadSettings(file)| == 5
    ensures Lookup(LoadSettings(file), "last_spreadsheet", default) == Text("음성기록")
    ensures Lookup(LoadSettings(file), "last_sheet", default) == Text("시트1")
    ensures Lookup(LoadSettings(file), "last_cell", default) == Text("A1")
    ensures Lookup(LoadSettings(file), "last_row", default) == Number(1)
    ensures Lookup(LoadSettings(file), "last_col", default) == Number(1)
  {
    var m := LoadSettings(file);
    assert m == DefaultSettings();
    var k1 := {"last_spreadsheet"};
    var k2 := k1 + {"last_sheet"};
    var k3 := k2 + {"last_cell"};
    var k4 := k3 + {"last_row"};
    var k5 := k4 + {"last_col"};
    assert |"last_sheet"| != |"last_spreadsheet"|;
    assert |"last_cell"| != |"last_sheet"| && |"last_cell"| != |"last_spreadsheet"|;
    assert |"last_row"| < |"last_cell"| < |"last_sheet"| < |"last_spreadsheet"|;
    assert "last_col"[5] != "last_row"[5];
    assert "last_col" !in k4;
    assert m.Keys == k5;
  }

  /** After storing `value` under `key`, the lookup of `key` gives it and every other key is unchanged. */
  lemma LookupAfterStore(m: map<string, Setting>, key: string, value: Setting, other: string, default: Setting)
    ensures Lookup(m[key := value], key, default) == value
    ensures other != key ==> Lookup(m[key := value], other, default) == Lookup(m, other, default)
    ensures key !in m ==> |m[key := value]| == |m| + 1
    ensures key in m ==> |m[key := value]| == |m|
  {
  }

  class SettingsManager {
    var settings: map<string, Setting>

    constructor (file: SettingsFile)
      ensures settings == LoadSettings(file)
    {
      settings := LoadSettings(file);
    }

    function GetSetting(key: string, default: Setting := Null): (v: Setting)
      reads this
      ensures key in settings ==> v == settings[key]
      ensures key !in settings ==> v == default
    {
      Lookup(settings, key, default)
    }

    method SetSetting(key: string, value: Setting)
      modifies this
      ensures settings == old(settings)[key := value]
      ensures GetSetting(key) == value
      ensures forall k :: k != key ==> GetSetting(k) == old(GetSetting(k))
    {
      settings := settings[key := value];
    }
  }
}
