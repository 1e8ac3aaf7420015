/** Start-up checks of invoices.py: the required environment variables (lines 12-25) and find_file (lines 147-155). */
module Setup {
  import opened Types
  import opened Seqs

  /** The names checked at start-up, as the program lists them. */
  const CheckedNames: seq<string> := ["CLIENT_ID", "CLIENT_SECRET", "SLUG", "USER_AGENT", "SUBJECT_ID", "INVOICE_FOLDER"]

  /** The names whose values the program then reads (the API URL has a default and is not among them). */
  const ReadNames: seq<string> :=
    ["INVOICE_FOLDER", "FAKTUROID_CLIENT_ID", "FAKTUROID_CLIENT_SECRET", "FAKTUROID_SLUG", "USER_AGENT", "SUBJECT_ID"]

  const DefaultApiUrl := "https://app.fakturoid.cz/api/v3"

  /** os.getenv(name) is truthy: the variable exists and is not empty. */
  predicate IsSet(env: map<string, string>, name: string)
  {
    name in env && env[name] != ""
  }

  /** The first of names that is not set, as an error; None when all are set. */
  function FirstMissing(names: seq<string>, env: map<string, string>): (r: Option<Error>)
    ensures r.None? <==> forall i :: 0 <= i < |names| ==> IsSet(env, names[i])
    ensures r.Some? ==> exists i :: 0 <= i < |names| && r.value == MissingVariable(names[i]) && !IsSet(env, names[i]) &&
                          forall j :: 0 <= j < i ==> IsSet(env, names[j])
  {
    var i := FirstIndex(names, (name: string) => !IsSet(env, name));
    if i < |names| then Some(MissingVariable(names[i])) else None
  }

  /** The start-up check as the program has it: it tests the unprefixed credential names. */
  function CheckEnvironmentAsWritten(env: map<string, string>): (r: Option<Error>)
    ensures r.None? <==> forall i :: 0 <= i < |CheckedNames| ==> IsSet(env, CheckedNames[i])
    ensures r.Some? ==> r.value.MissingVariable? && r.value.name in CheckedNames && !IsSet(env, r.value.name)
  {
    FirstMissing(CheckedNames, env)
  }

  /** The start-up check over the names that are actually read. */
  function CheckEnvironment(env: map<string, string>): Option<Error>
  {
    FirstMissing(ReadNames, env)
  }

  /** The check as written passes although the client id the program reads is absent. */
  lemma WrittenCheckPassesWithoutCredentials()
    ensures var env := map["CLIENT_ID" := "id", "CLIENT_SECRET" := "secret", "SLUG" := "acme",
                           "USER_AGENT" := "agent", "SUBJECT_ID" := "7", "INVOICE_FOLDER" := "invoices"];
            CheckEnvironmentAsWritten(env) == None && !IsSet(env, "FAKTUROID_CLIENT_ID")
  {
    var env := map["CLIENT_ID" := "id", "CLIENT_SECRET" := "secret", "SLUG" := "acme",
                   "USER_AGENT" := "agent", "SUBJECT_ID" := "7", "INVOICE_FOLDER" := "invoices"];
    assert forall i :: 0 <= i < |CheckedNames| ==> IsSet(env, CheckedNames[i]);
  }

  /** The process-wide settings. */
  datatype Config = Config(
    invoiceFolder: string,
    clientId: string,
    clientSecret: string,
    slug: string,
    userAgent: string,
    subjectId: string,
    apiUrl: string,
    tokenUrl: string,
    invoiceUrl: string)

  /**
   * Loading the settings: fail on the first variable that is not set, otherwise read them all.
   * Every setting the program uses is then non-empty, except an API URL explicitly set empty.
   */
  function LoadConfig(env: map<string, string>): (r: Result<Config>)
    ensures r.Err? <==> exists i :: 0 <= i < |ReadNames| && !IsSet(env, ReadNames[i])
    ensures r.Err? ==> r.error.MissingVariable? && !IsSet(env, r.error.name)
    ensures r.Ok? ==> var c := r.value;
                      c.invoiceFolder != "" && c.clientId != "" && c.clientSecret != "" && c.slug != "" &&
                      c.userAgent != "" && c.subjectId != ""
    ensures r.Ok? && "FAKTUROID_API_URL" !in env ==> r.value.tokenUrl == DefaultApiUrl + "/oauth/token"
  {
    match CheckEnvironment(env)
    case Some(e) => Err(e)
    case None =>
      assert IsSet(env, ReadNames[0]) && IsSet(env, ReadNames[1]) && IsSet(env, ReadNames[2]);
      assert IsSet(env, ReadNames[3]) && IsSet(env, ReadNames[4]) && IsSet(env, ReadNames[5]);
      var api := if "FAKTUROID_API_URL" in env then env["FAKTUROID_API_URL"] else DefaultApiUrl;
      var slug := env["FAKTUROID_SLUG"];
      Ok(Config(env["INVOICE_FOLDER"], env["FAKTUROID_CLIENT_ID"], env["FAKTUROID_CLIENT_SECRET"], slug,
                env["USER_AGENT"], env["SUBJECT_ID"], api,
                api + "/oauth/token", api + "/accounts/" + slug + "/invoices.json"))
  }

  predicate EndsWith(s: string, suffix: string)
  {
    |s| >= |suffix| && s[|s| - |suffix|..] == suffix
  }

  predicate IsSpreadsheet(name: string)
  {
    EndsWith(name, ".xlsx")
  }

  /**
   * find_file on a folder that exists or not and its listing: the first entry ending in ".xlsx".
   * A missing folder is created by the program and the run still fails.
   */
  function FindFile(dirExists: bool, listing: seq<string>): (r: Result<string>)
    ensures !dirExists ==> r == Err(DirectoryNotFound)
    ensures dirExists && (forall i :: 0 <= i < |listing| ==> !IsSpreadsheet(listing[i])) ==> r == Err(NoSpreadsheet)
    ensures dirExists && (exists i :: 0 <= i < |listing| && IsSpreadsheet(listing[i])) ==> r.Ok?
    ensures r.Ok? ==> exists i :: 0 <= i < |listing| && listing[i] == r.value && IsSpreadsheet(r.value) &&
                        forall j :: 0 <= j < i ==> !IsSpreadsheet(listing[j])
  {
    if !dirExists then Err(DirectoryNotFound)
    else
      var i := FirstIndex(listing, IsSpreadsheet);
      if i < |listing| then Ok(listing[i]) else Err(NoSpreadsheet)
  }
}
