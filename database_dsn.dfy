/** The Postgres connection URI that `NewPostgresDatabase` builds from the environment. */
module DatabaseDsn {
  import opened Wrappers
  import opened Strings

  /** The five DB_* settings the URI is built from. */
  datatype DbConfig = DbConfig(host: string, port: string, user: string, pass: string, name: string)

  const Scheme := "postgres://"

  /**
   * The URI: "postgres://" first, then the components inserted verbatim, with credentials only
   * when both user and password are non-empty; read back, it names the settings it keeps.
   */
  function Dsn(c: DbConfig): (r: string)
    ensures |r| >= |Scheme| && r[..|Scheme|] == Scheme
    ensures |r| == |Scheme| + |c.host| + |c.port| + |c.name| + 2
                   + (if c.user == "" || c.pass == "" then 0 else |c.user| + |c.pass| + 2)
    ensures Plain(c) ==> ParseDsn(r) == Some(Kept(c))
  {
    if c.user == "" || c.pass == "" then
      var rest := c.host + ":" + c.port + "/" + c.name;
      SchemeReadsBack(rest);
      AuthorityReadsBack(c);
      Scheme + rest
    else
      var rest := c.user + ":" + c.pass + "@" + c.host + ":" + c.port + "/" + c.name;
      SchemeReadsBack(rest);
      AuthorityReadsBack(c);
      Scheme + rest
  }

  /** The settings a URI names: the credentials before an '@', then host, port and database name. */
  function ParseDsn(s: string): Option<DbConfig> {
    if |s| < |Scheme| || s[..|Scheme|] != Scheme then None
    else Some(ParseAuthority(s[|Scheme|..]))
  }

  /** The settings named by what follows the scheme. */
  function ParseAuthority(rest: string): DbConfig {
    var (user, pass, address) :=
      if '@' in rest then
        var (credentials, after) := SplitAt(rest, '@');
        var (u, p) := SplitAt(credentials, ':');
        (u, p, after)
      else ("", "", rest);
    var (host, portAndName) := SplitAt(address, ':');
    var (port, name) := SplitAt(portAndName, '/');
    DbConfig(host, port, user, pass, name)
  }

  /** The settings the URI keeps: the credentials are dropped as a pair when either is empty. */
  function Kept(c: DbConfig): (k: DbConfig)
    ensures k.host == c.host && k.port == c.port && k.name == c.name
    ensures (k.user, k.pass) == if c.user == "" || c.pass == "" then ("", "") else (c.user, c.pass)
  {
    if c.user == "" || c.pass == "" then c.(user := "", pass := "") else c
  }

  /** No component holds a separator a reader of the URI splits at. */
  predicate Plain(c: DbConfig) {
    && ':' !in c.host && '@' !in c.host && '/' !in c.host
    && ':' !in c.port && '@' !in c.port && '/' !in c.port
    && ':' !in c.user && '@' !in c.user
    && '@' !in c.pass
    && '@' !in c.name
  }

  /** Host, port and name read back from "host:port/name". */
  lemma AddressReadsBack(host: string, port: string, name: string)
    requires ':' !in host && '/' !in port
    ensures SplitAt(host + ":" + port + "/" + name, ':') == (host, port + "/" + name)
    ensures SplitAt(port + "/" + name, '/') == (port, name)
  {
    assert host + ":" + port + "/" + name == host + [':'] + (port + "/" + name);
    SplitAtOf(host, ':', port + "/" + name);
    SplitAtOf(port, '/', name);
  }

  lemma SchemeReadsBack(rest: string)
    ensures ParseDsn(Scheme + rest) == Some(ParseAuthority(rest))
  {
    assert (Scheme + rest)[..|Scheme|] == Scheme;
    assert (Scheme + rest)[|Scheme|..] == rest;
  }

  /** "host:port/name" names no credentials. */
  lemma AuthorityWithoutCredentials(host: string, port: string, name: string)
    requires ':' !in host && '@' !in host && '@' !in port && '/' !in port && '@' !in name
    ensures ParseAuthority(host + ":" + port + "/" + name) == DbConfig(host, port, "", "", name)
  {
    var address := host + ":" + port + "/" + name;
    assert address == host + [':'] + port + ['/'] + name;
    assert '@' !in address;
    AddressReadsBack(host, port, name);
  }

  /** "user:pass@host:port/name" names all five settings. */
  lemma AuthorityWithCredentials(user: string, pass: string, host: string, port: string, name: string)
    requires ':' !in user && '@' !in user && '@' !in pass
    requires ':' !in host && '/' !in port
    ensures ParseAuthority(user + ":" + pass + "@" + host + ":" + port + "/" + name) == DbConfig(host, port, user, pass, name)
  {
    var address := host + ":" + port + "/" + name;
    var credentials := user + ":" + pass;
    var rest := user + ":" + pass + "@" + host + ":" + port + "/" + name;
    assert rest == credentials + ['@'] + address;
    assert credentials == user + [':'] + pass;
    assert '@' !in credentials;
    assert '@' in rest;
    SplitAtOf(credentials, '@', address);
    SplitAtOf(user, ':', pass);
    AddressReadsBack(host, port, name);
  }

  /** What follows the scheme names the settings the URI keeps, when they are plain. */
  lemma AuthorityReadsBack(c: DbConfig)
    ensures Plain(c) && (c.user == "" || c.pass == "") ==>
              ParseAuthority(c.host + ":" + c.port + "/" + c.name) == Kept(c)
    ensures Plain(c) && c.user != "" && c.pass != "" ==>
              ParseAuthority(c.user + ":" + c.pass + "@" + c.host + ":" + c.port + "/" + c.name) == Kept(c)
  {
    if Plain(c) {
      if c.user == "" || c.pass == "" {
        AuthorityWithoutCredentials(c.host, c.port, c.name);
      } else {
        AuthorityWithCredentials(c.user, c.pass, c.host, c.port, c.name);
      }
    }
  }

  /**
   * Components are not escaped: credentials that join to the same "user:pass" text give the
   * same URI, so a ':' can move between user and password unseen.
   */
  lemma NoEscaping(c: DbConfig, user: string, pass: string)
    requires c.user != "" && c.pass != "" && user != "" && pass != ""
    requires c.user + ":" + c.pass == user + ":" + pass
    ensures Dsn(c) == Dsn(c.(user := user, pass := pass))
  {
    var address := "@" + c.host + ":" + c.port + "/" + c.name;
    assert Dsn(c) == Scheme + (c.user + ":" + c.pass) + address;
    assert Dsn(c.(user := user, pass := pass)) == Scheme + (user + ":" + pass) + address;
  }

  /** User "a:b" with password "c" and user "a" with password "b:c" give the same URI. */
  lemma NoEscapingExample()
    ensures Dsn(DbConfig("db", "5432", "a:b", "c", "app")) == Dsn(DbConfig("db", "5432", "a", "b:c", "app"))
    ensures DbConfig("db", "5432", "a:b", "c", "app") != DbConfig("db", "5432", "a", "b:c", "app")
  {
    assert "a:b" + ":" + "c" == "a" + ":" + "b:c";
    NoEscaping(DbConfig("db", "5432", "a:b", "c", "app"), "a", "b:c");
  }
}
