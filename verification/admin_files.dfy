/** The files an admin may upload, remove or view, and where each lives
    (`File` and `File::path`). */
module AdminFiles {
  import opened Results
  import Ascii

  datatype File = Db | Admins | Banlist | Description | Settings | Whitelist | CliSettings

  /** "veloren/target/debug/userdata/" and the three directories under it. */
  const UserData := "veloren/target/debug/userdata/"
  const Saves := UserData + "server/saves/"
  const ServerConfig := UserData + "server/server_config/"
  const CliDir := UserData + "server-cli/"

  /** Where `File::path` puts each file: directory, stem and extension. */
  function Dir(f: File): string {
    match f
    case Db => Saves
    case CliSettings => CliDir
    case _ => ServerConfig
  }

  function Stem(f: File): string {
    match f
    case Db => "db"
    case Admins => "admins"
    case Banlist => "banlist"
    case Description => "description"
    case Settings => "settings"
    case Whitelist => "whitelist"
    case CliSettings => "settings"
  }

  function Ext(f: File): string {
    if f == Db then "sqlite" else "ron"
  }

  /** `File::path`: directory, stem and extension joined, for example
      "veloren/target/debug/userdata/server/server_config/admins.ron". */
  function Path(f: File): (r: string)
    ensures f == Admins ==> r == "veloren/target/debug/userdata/server/server_config/admins.ron"
  {
    Dir(f) + Stem(f) + "." + Ext(f)
  }

  /** The database is the only file with extension "sqlite"; all others
      have "ron", which selects the text branch of `view`. */
  lemma PathExtension(f: File)
    ensures Ascii.Extension(Path(f)) == Some(if f == Db then "sqlite" else "ron")
  {
    var stem := Stem(f);
    assert stem != [] && '.' !in stem && '/' !in stem;
    assert '.' !in Ext(f) && '/' !in Ext(f);
    assert Dir(f)[|Dir(f)| - 1] == '/';
    Ascii.ExtensionOfJoined(Dir(f), stem, Ext(f));
  }

  /** Every path lies under the user-data directory: the five server
      configuration files under `server/server_config/`, the CLI settings
      under `server-cli/`, the database under `server/saves/`. */
  lemma PathDirectory(f: File)
    ensures UserData <= Path(f)
    ensures f in {Admins, Banlist, Description, Settings, Whitelist} ==> ServerConfig <= Path(f)
    ensures f == CliSettings ==> CliDir <= Path(f)
    ensures f == Db ==> Saves <= Path(f)
  {
  }

  /** No two files share a path. */
  lemma PathInjective(f: File, g: File)
    requires f != g
    ensures Path(f) != Path(g)
  {
  }
}
