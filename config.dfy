/** The settings check of backend/app/config.py: the two Supabase variables
    (read from the environment, empty when unset) must both be non-empty, and
    the error names every missing one, URL first. */
module Config {
  import opened Common

  const MissingPrefix: string := "Missing required environment variables: "

  /** `', '.join(names)`. */
  function JoinComma(names: seq<string>): (r: string)
    ensures names == [] ==> r == ""
    ensures |names| == 1 ==> r == names[0]
    ensures |names| == 2 ==> r == names[0] + ", " + names[1]
  {
    if names == [] then ""
    else if |names| == 1 then names[0]
    else names[0] + ", " + JoinComma(names[1..])
  }

  class Settings {
    var supabaseUrl: string
    var supabaseKey: string

    /** `Settings()`: each variable's value, or "" when it is not set. */
    constructor (url: string, key: string)
      ensures supabaseUrl == url && supabaseKey == key
    {
      supabaseUrl := url;
      supabaseKey := key;
    }

    /** The names of the variables that are empty, in the order they are checked. */
    function Missing(): (names: seq<string>)
      reads this
      ensures "SUPABASE_URL" in names <==> supabaseUrl == ""
      ensures "SUPABASE_KEY" in names <==> supabaseKey == ""
      ensures |names| <= 2
      ensures supabaseUrl == "" ==> names[0] == "SUPABASE_URL"
      ensures |names| == 2 ==> names == ["SUPABASE_URL", "SUPABASE_KEY"]
    {
      (if supabaseUrl == "" then ["SUPABASE_URL"] else []) + (if supabaseKey == "" then ["SUPABASE_KEY"] else [])
    }

    /** `validate()`: None when nothing is missing, else the text of the raised error. */
    method Validate() returns (error: Option<string>)
      ensures error.None? <==> supabaseUrl != "" && supabaseKey != ""
      ensures error.Some? ==> error.value == MissingPrefix + JoinComma(Missing())
    {
      var missing: seq<string> := [];
      if supabaseUrl == "" {
        missing := missing + ["SUPABASE_URL"];
      }
      if supabaseKey == "" {
        missing := missing + ["SUPABASE_KEY"];
      }
      if missing != [] {
        return Some(MissingPrefix + JoinComma(missing));
      }
      return None;
    }
  }

  /** With both variables unset, the error names URL before key. */
  lemma BothMissingMessage(s: Settings)
    requires s.supabaseUrl == "" && s.supabaseKey == ""
    ensures MissingPrefix + JoinComma(s.Missing()) == MissingPrefix + "SUPABASE_URL, SUPABASE_KEY"
  {
    var names := s.Missing();
    assert names[1..] == ["SUPABASE_KEY"];
  }
}
