/**
 * The settings form of popup.js: which inputs count as an Airtable base ID or
 * URL, and the guards the Save button runs, in order, before the settings are
 * written to synced storage and a sync is requested.
 */
module Popup {
  import opened Strings

  const AirtablePrefix: string := "https://airtable.com/"

  /** isValidAirtableInput: a base ID starts with "app"; a URL must start with the Airtable prefix. */
  function IsValidAirtableInput(input: string): (r: bool)
    ensures r <==> StartsWith(input, "app") || StartsWith(input, AirtablePrefix)
  {
    if StartsWith(input, "app") then true
    else
      // The `includes('/')` conjunct adds nothing: the prefix itself holds a slash.
      if StartsWith(input, AirtablePrefix) then
        PrefixHoldsSlash(input);
        Contains(input, "/")
      else false
  }

  lemma PrefixHoldsSlash(input: string)
    requires StartsWith(input, AirtablePrefix)
    ensures Contains(input, "/")
  {
    assert input[6] == input[..|AirtablePrefix|][6] == '/';
    assert input[6..][..1] == [input[6]];
    ContainsIsSubstring(input, "/");
  }

  /** Other schemes and a bare host name are not accepted, slash or not. */
  lemma OnlyTheHttpsPrefixIsAccepted()
    ensures !IsValidAirtableInput("http://airtable.com/x")
    ensures !IsValidAirtableInput("airtable.com/x")
    ensures IsValidAirtableInput("https://airtable.com/x")
  {
    assert "http://airtable.com/x"[..3][0] != "app"[0];
    assert "http://airtable.com/x"[..|AirtablePrefix|][4] != AirtablePrefix[4];
    assert "airtable.com/x"[..3][1] != "app"[1];
    assert |"airtable.com/x"| < |AirtablePrefix|;
  }

  /** The two inputs the form can send the cursor back to. */
  datatype Field = UrlField | ApiKeyField

  /** What is written to `chrome.storage.sync`. */
  datatype Settings = Settings(airtableUrl: string, airtableApiKey: string, syncInterval: int)

  /**
   * The outcome of one click on Save: an error status with the field that gets
   * focus, or the settings written, after which "Settings saved successfully!"
   * is shown and a sync requested.
   */
  datatype SaveOutcome = Rejected(message: string, focus: Field) | Saved(settings: Settings)

  const NoKeyMessage: string := "Please enter your Airtable API key"
  const NoUrlMessage: string := "Please enter an Airtable Base ID or URL"
  const InvalidUrlMessage: string := "Please enter a valid Airtable Base ID or URL"

  /**
   * saveSettings on the raw field values; `syncInterval` is the parsed value
   * of the interval selector. The first failing guard, taken in the order
   * API key, URL present, URL valid, is the one reported; otherwise the
   * trimmed values are saved.
   */
  function SaveSettings(urlValue: string, keyValue: string, syncInterval: int): (o: SaveOutcome)
    ensures AllWhitespace(keyValue) ==> o == Rejected(NoKeyMessage, ApiKeyField)
    ensures !AllWhitespace(keyValue) && AllWhitespace(urlValue) ==> o == Rejected(NoUrlMessage, UrlField)
    ensures !AllWhitespace(keyValue) && !AllWhitespace(urlValue) && !IsValidAirtableInput(Trim(urlValue)) ==>
              o == Rejected(InvalidUrlMessage, UrlField)
    ensures o.Saved? <==>
              !AllWhitespace(keyValue) && !AllWhitespace(urlValue) && IsValidAirtableInput(Trim(urlValue))
    ensures o.Saved? ==> o.settings == Settings(Trim(urlValue), Trim(keyValue), syncInterval)
  {
    var airtableUrl := Trim(urlValue);
    var airtableApiKey := Trim(keyValue);
    TrimEmptyIffWhitespace(urlValue);
    TrimEmptyIffWhitespace(keyValue);
    if airtableApiKey == "" then Rejected(NoKeyMessage, ApiKeyField)
    else if airtableUrl == "" then Rejected(NoUrlMessage, UrlField)
    else if !IsValidAirtableInput(airtableUrl) then Rejected(InvalidUrlMessage, UrlField)
    else Saved(Settings(airtableUrl, airtableApiKey, syncInterval))
  }

  /** A string already free of surrounding whitespace is its own trim. */
  lemma TrimmedIsFixed(s: string)
    requires s == [] || (!IsWhitespace(s[0]) && !IsWhitespace(s[|s| - 1]))
    ensures Trim(s) == s
  {
    assert TrimStart(s) == s;
    assert TrimEnd(s) == s;
  }

  /** Saving what was just saved stores the same settings again. */
  lemma ResavingIsStable(urlValue: string, keyValue: string, syncInterval: int)
    requires !AllWhitespace(keyValue) && !AllWhitespace(urlValue) && IsValidAirtableInput(Trim(urlValue))
    ensures var s := SaveSettings(urlValue, keyValue, syncInterval).settings;
            SaveSettings(s.airtableUrl, s.airtableApiKey, s.syncInterval) == Saved(s)
  {
    var s := SaveSettings(urlValue, keyValue, syncInterval).settings;
    NonEmptyTrimmed(urlValue);
    NonEmptyTrimmed(keyValue);
  }

  /** A field that is not all whitespace trims to a non-empty value that trims to itself. */
  lemma NonEmptyTrimmed(v: string)
    requires !AllWhitespace(v)
    ensures Trim(v) != [] && !AllWhitespace(Trim(v)) && Trim(Trim(v)) == Trim(v)
  {
    TrimEmptyIffWhitespace(v);
    var t := Trim(v);
    TrimmedIsFixed(t);
    assert !IsWhitespace(t[0]);
  }
}
