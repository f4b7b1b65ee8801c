/** The keyword parsing of the `files` command: `Operation::from_str`, the
    `FILES` table and `File::from_str`. */
module FileCommands {
  import opened Results
  import Ascii

  datatype Operation = Upload | Remove | View | List

  const UnknownOperation := "Unknown Operation"

  /** The keywords each operation accepts, in lower case. */
  function Aliases(op: Operation): set<string> {
    match op
    case Upload => {"upload", "up"}
    case Remove => {"remove", "rm"}
    case View => {"view", "v"}
    case List => {"list", "ls"}
  }

  /** `Operation::from_str`: the lower-cased keyword selects the operation;
      anything else is "Unknown Operation". */
  function ParseOperation(s: string): (r: Result<Operation, string>)
    ensures r.Ok? ==> Ascii.ToLower(s) in Aliases(r.value)
    ensures r.Err? ==> (r.error == UnknownOperation
      && forall op: Operation :: Ascii.ToLower(s) !in Aliases(op))
  {
    match Ascii.ToLower(s)
    case "upload" => Ok(Upload)
    case "up" => Ok(Upload)
    case "remove" => Ok(Remove)
    case "rm" => Ok(Remove)
    case "view" => Ok(View)
    case "v" => Ok(View)
    case "list" => Ok(List)
    case "ls" => Ok(List)
    case _ => Err(UnknownOperation)
  }

  /** Every alias of an operation parses to it, whatever its case. */
  lemma AliasesParse(op: Operation, k: string)
    requires Ascii.ToLower(k) in Aliases(op)
    ensures ParseOperation(k) == Ok(op)
  {
  }

  /** Parsing ignores case. */
  lemma ParseOperationIgnoresCase(s: string)
    ensures ParseOperation(s) == ParseOperation(Ascii.ToLower(s))
  {
    Ascii.ToLowerIdempotent(s);
  }

  /** The alias sets are disjoint, so each keyword names one operation. */
  lemma AliasesDisjoint(a: Operation, b: Operation)
    requires a != b
    ensures Aliases(a) !! Aliases(b)
  {
  }

  /** `FILES`: the files the command may view, replace or delete. */
  const Files: map<string, string> := map[
    "db" := "veloren/userdata/server/saves/db.sqlite",
    "admins" := "veloren/userdata/server/server_config/admins.ron",
    "banlist" := "veloren/userdata/server/server_config/banlist.ron",
    "description" := "veloren/userdata/server/server_config/description.ron",
    "settings" := "veloren/userdata/server/server_config/settings.ron",
    "whitelist" := "veloren/userdata/server/server_config/whitelist.ron",
    "cli_settings" := "veloren/userdata/server-cli/settings.ron"
  ]

  /** `File::from_str`: the path of the lower-cased name in `FILES`; an
      unknown name gives "Unknown Operation". */
  function ParseFile(s: string): (r: Result<string, string>)
    ensures r.Ok? <==> Ascii.ToLower(s) in Files
    ensures r.Ok? ==> r.value == Files[Ascii.ToLower(s)]
    ensures r.Err? ==> r.error == UnknownOperation
  {
    var key := Ascii.ToLower(s);
    if key in Files then Ok(Files[key]) else Err(UnknownOperation)
  }

  /** The table has exactly seven keys, all in lower case, so every listed
      name parses to its own path. */
  lemma FilesKeys(k: string)
    ensures Files.Keys == {"db", "admins", "banlist", "description", "settings", "whitelist", "cli_settings"}
    ensures k in Files ==> ParseFile(k) == Ok(Files[k])
  {
    if k in Files {
      Ascii.ToLowerOfLower(k);
    }
  }

  /** The extension of one table entry: "sqlite" for the database,
      "ron" for the rest. */
  lemma EntryExtension(k: string)
    requires k in Files
    ensures Ascii.Extension(Files[k]) == Some(if k == "db" then "sqlite" else "ron")
  {
    var config := "veloren/userdata/server/server_config/";
    var path := Files[k];
    if k == "db" {
      assert path == "veloren/userdata/server/saves/" + "db" + "." + "sqlite";
      Ascii.ExtensionOfJoined("veloren/userdata/server/saves/", "db", "sqlite");
    } else if k == "admins" {
      assert path == config + "admins" + "." + "ron";
      Ascii.ExtensionOfJoined(config, "admins", "ron");
    } else if k == "banlist" {
      assert path == config + "banlist" + "." + "ron";
      Ascii.ExtensionOfJoined(config, "banlist", "ron");
    } else if k == "description" {
      assert path == config + "description" + "." + "ron";
      Ascii.ExtensionOfJoined(config, "description", "ron");
    } else if k == "settings" {
      assert path == config + "settings" + "." + "ron";
      Ascii.ExtensionOfJoined(config, "settings", "ron");
    } else if k == "whitelist" {
      assert path == config + "whitelist" + "." + "ron";
      Ascii.ExtensionOfJoined(config, "whitelist", "ron");
    } else {
      assert k == "cli_settings";
      assert path == "veloren/userdata/server-cli/" + "settings" + "." + "ron";
      Ascii.ExtensionOfJoined("veloren/userdata/server-cli/", "settings", "ron");
    }
  }

  /** Every path but the database's has extension "ron" (the text branch of
      `view`); the database's is "sqlite". */
  lemma FilesExtensions()
    ensures Ascii.Extension(Files["db"]) == Some("sqlite")
    ensures forall k | k in Files && k != "db" :: Ascii.Extension(Files[k]) == Some("ron")
  {
    EntryExtension("db");
    forall k | k in Files && k != "db"
      ensures Ascii.Extension(Files[k]) == Some("ron")
    {
      EntryExtension(k);
    }
  }
}
