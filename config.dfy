/**
 * The application configuration (cmd/config.go): the database settings, the
 * table of chain client configs keyed by chain ID, and the action names.
 */
module Configuration {
  import opened Wrappers
  import Format

  /** The connection details of the database. */
  datatype DatabaseConfig = DatabaseConfig(
    host: string, port: int, user: string, password: string, name: string, sslMode: string, driver: string)
  {
    /**
     * ConnectionString (lines 260-263). The Go method belongs to the config but
     * reads only its database settings, so it is defined here: every field but
     * the driver, `%d` for the port.
     */
    function ConnectionString(): string {
      "host=" + host + " port=" + Format.IntToDecimal(port) + " user=" + user + " password=" + password
      + " dbname=" + name + " sslmode=" + sslMode
    }
  }

  /** The part of a lens ChainClientConfig the model reads: its ID and how to reach the chain. */
  datatype ChainClientConfig = ChainClientConfig(chainID: string, rpcAddr: string, accountPrefix: string, gasPrices: string)

  /** The database settings of defaultConfig (lines 245-256). */
  const DefaultDatabase: DatabaseConfig :=
    DatabaseConfig("localhost", 5432, "anon", "password123", "atlas", "disable", "postgres")

  const EmptyIDError: Error := "chainConfig ID cannot be empty"

  function DuplicateIDError(id: string): Error {
    "chainConfig with ID " + id + " already exists in config"
  }

  function NotConfiguredError(id: string): Error {
    "chain with ID " + id + " is not configured"
  }

  /** Every chain config has a non-empty ID and no two share one. */
  ghost predicate ValidChains(chains: seq<ChainClientConfig>) {
    && (forall i :: 0 <= i < |chains| ==> chains[i].chainID != "")
    && (forall i, j :: 0 <= i < j < |chains| ==> chains[i].chainID != chains[j].chainID)
  }

  /** The lookup GetChainConfig performs: the first entry with the ID, if any. */
  function FindChainConfig(chains: seq<ChainClientConfig>, id: string): (r: Result<ChainClientConfig>)
    ensures r.Err? <==> forall i :: 0 <= i < |chains| ==> chains[i].chainID != id
    ensures r.Err? ==> r.error == NotConfiguredError(id)
    ensures r.Ok? ==> exists i :: 0 <= i < |chains| && chains[i] == r.value && r.value.chainID == id
                                  && forall j :: 0 <= j < i ==> chains[j].chainID != id
  {
    if |chains| == 0 then Err(NotConfiguredError(id))
    else if chains[0].chainID == id then Ok(chains[0])
    else
      var r := FindChainConfig(chains[1..], id);
      assert r.Ok? ==> exists i :: 1 <= i < |chains| && chains[i] == r.value && r.value.chainID == id
                                   && forall j :: 0 <= j < i ==> chains[j].chainID != id by {
        if r.Ok? {
          var k :| 0 <= k < |chains[1..]| && chains[1..][k] == r.value && r.value.chainID == id
                   && forall j :: 0 <= j < k ==> chains[1..][j].chainID != id;
          assert chains[k + 1] == r.value;
          forall j | 0 <= j < k + 1 ensures chains[j].chainID != id {
            if j > 0 {
              assert chains[j] == chains[1..][j - 1];
            }
          }
        }
      }
      assert r.Err? ==> forall i :: 0 <= i < |chains| ==> chains[i].chainID != id by {
        if r.Err? {
          forall i | 0 <= i < |chains| ensures chains[i].chainID != id {
            if i > 0 {
              assert chains[i] == chains[1..][i - 1];
            }
          }
        }
      }
      r
  }

  /** The outcome AddChainConfig has on the table: the table with the entry appended, or the error. */
  function AddChain(chains: seq<ChainClientConfig>, cc: ChainClientConfig): (r: Result<seq<ChainClientConfig>>)
    ensures r.Ok? <==> cc.chainID != "" && forall i :: 0 <= i < |chains| ==> chains[i].chainID != cc.chainID
    ensures r.Ok? ==> r.value == chains + [cc]
    ensures cc.chainID == "" ==> r == Err(EmptyIDError)
    ensures cc.chainID != "" && r.Err? ==> r.error == DuplicateIDError(cc.chainID)
  {
    if cc.chainID == "" then Err(EmptyIDError)
    else if FindChainConfig(chains, cc.chainID).Ok? then Err(DuplicateIDError(cc.chainID))
    else Ok(chains + [cc])
  }

  /** The application config; the methods update `chainConfigs` in place. */
  class Config {
    var db: DatabaseConfig
    var chainConfigs: seq<ChainClientConfig>
    var actions: seq<string>

    /** defaultConfig (lines 245-256): default database settings, no chains and no actions. */
    constructor Default()
      ensures db == DefaultDatabase && chainConfigs == [] && actions == []
    {
      db := DefaultDatabase;
      chainConfigs := [];
      actions := [];
    }

    /** GetChainConfig (lines 235-242): a search loop returning the first match. */
    method GetChainConfig(chainID: string) returns (r: Result<ChainClientConfig>)
      ensures r == FindChainConfig(chainConfigs, chainID)
    {
      for i := 0 to |chainConfigs|
        invariant FindChainConfig(chainConfigs, chainID) == FindChainConfig(chainConfigs[i..], chainID)
      {
        if chainID == chainConfigs[i].chainID {
          return Ok(chainConfigs[i]);
        }
        assert chainConfigs[i..][1..] == chainConfigs[i + 1..];
      }
      return Err(NotConfiguredError(chainID));
    }

    /** AddChainConfig (lines 222-232). */
    method AddChainConfig(cc: ChainClientConfig) returns (err: Option<Error>)
      modifies this`chainConfigs
      ensures var r := AddChain(old(chainConfigs), cc);
        && (r.Ok? ==> err == None && chainConfigs == r.value)
        && (r.Err? ==> err == Some(r.error) && chainConfigs == old(chainConfigs))
    {
      if cc.chainID == "" {
        return Some(EmptyIDError);
      }
      var existing := GetChainConfig(cc.chainID);
      if existing.Ok? {
        return Some(DuplicateIDError(cc.chainID));
      }
      chainConfigs := chainConfigs + [cc];
      return None;
    }
  }

  // ---------------------------------------------------------------------------
  // Properties

  /** After a successful add, looking the ID up finds the entry just added. */
  lemma AddThenGet(chains: seq<ChainClientConfig>, cc: ChainClientConfig)
    requires AddChain(chains, cc).Ok?
    ensures FindChainConfig(AddChain(chains, cc).value, cc.chainID) == Ok(cc)
  {
    var added := AddChain(chains, cc).value;
    assert added[|chains|] == cc;
    assert forall j :: 0 <= j < |chains| ==> added[j] == chains[j];
  }

  /** An add keeps IDs non-empty and distinct. */
  lemma AddKeepsChainsValid(chains: seq<ChainClientConfig>, cc: ChainClientConfig)
    requires ValidChains(chains)
    ensures var r := AddChain(chains, cc); r.Ok? ==> ValidChains(r.value)
  {
  }

  /** An add changes no other ID's lookup. */
  lemma AddLeavesOtherLookups(chains: seq<ChainClientConfig>, cc: ChainClientConfig, id: string)
    requires AddChain(chains, cc).Ok? && id != cc.chainID
    ensures FindChainConfig(AddChain(chains, cc).value, id) == FindChainConfig(chains, id)
  {
    var added := AddChain(chains, cc).value;
    var r := FindChainConfig(added, id);
    var s := FindChainConfig(chains, id);
    if r.Ok? {
      var i :| 0 <= i < |added| && added[i] == r.value && r.value.chainID == id
               && forall j :: 0 <= j < i ==> added[j].chainID != id;
      assert i < |chains| && chains[i] == added[i];
      if s.Ok? {
        var k :| 0 <= k < |chains| && chains[k] == s.value && s.value.chainID == id
                 && forall j :: 0 <= j < k ==> chains[j].chainID != id;
        assert added[k] == chains[k];
        assert k == i;
      }
    } else {
      forall i | 0 <= i < |chains| ensures chains[i].chainID != id {
        assert added[i] == chains[i];
      }
    }
  }

  /** The connection string leaves the driver out. */
  lemma ConnectionStringIgnoresDriver(db: DatabaseConfig, driver: string)
    ensures db.(driver := driver).ConnectionString() == db.ConnectionString()
  {
  }

  /** `key=value` settings separated by single spaces, in the order given. */
  function KeyValues(settings: seq<(string, string)>): string {
    if |settings| == 0 then ""
    else if |settings| == 1 then settings[0].0 + "=" + settings[0].1
    else settings[0].0 + "=" + settings[0].1 + " " + KeyValues(settings[1..])
  }

  /** One setting in front of the others. */
  lemma KeyValuesStep(settings: seq<(string, string)>, tail: string)
    requires |settings| >= 2 && KeyValues(settings[1..]) == tail
    ensures KeyValues(settings) == settings[0].0 + "=" + settings[0].1 + " " + tail
  {
  }

  /** Moving one ` key=value` out of a prefix and in front of the rest. */
  lemma Regroup(prefix: string, lit: string, key: string, value: string, tail: string)
    requires lit == " " + key + "="
    ensures prefix + lit + value + (" " + tail) == prefix + (" " + (key + "=" + value + " " + tail))
  {
  }

  /** The connection string with each setting in front of the ones after it. */
  lemma ConnectionStringNested(db: DatabaseConfig)
    ensures db.ConnectionString() ==
      "host" + "=" + db.host + " " + ("port" + "=" + Format.IntToDecimal(db.port) + " " + ("user" + "=" + db.user + " " +
      ("password" + "=" + db.password + " " + ("dbname" + "=" + db.name + " " + ("sslmode" + "=" + db.sslMode)))))
  {
    var port := Format.IntToDecimal(db.port);
    var p0 := "host=" + db.host;
    var p1 := p0 + " port=" + port;
    var p2 := p1 + " user=" + db.user;
    var p3 := p2 + " password=" + db.password;
    var p4 := p3 + " dbname=" + db.name;
    var t5 := "sslmode" + "=" + db.sslMode;
    var t4 := "dbname" + "=" + db.name + " " + t5;
    var t3 := "password" + "=" + db.password + " " + t4;
    var t2 := "user" + "=" + db.user + " " + t3;
    var t1 := "port" + "=" + port + " " + t2;
    assert db.ConnectionString() == p4 + " sslmode=" + db.sslMode;
    assert p4 + " sslmode=" + db.sslMode == p4 + (" " + t5);
    Regroup(p3, " dbname=", "dbname", db.name, t5);
    Regroup(p2, " password=", "password", db.password, t4);
    Regroup(p1, " user=", "user", db.user, t3);
    Regroup(p0, " port=", "port", port, t2);
    assert p0 + (" " + t1) == "host" + "=" + db.host + " " + t1;
  }

  /** The connection string lists host, port, user, password, dbname and sslmode, in that order. */
  lemma ConnectionStringLayout(db: DatabaseConfig)
    ensures db.ConnectionString() == KeyValues([
      ("host", db.host), ("port", Format.IntToDecimal(db.port)), ("user", db.user),
      ("password", db.password), ("dbname", db.name), ("sslmode", db.sslMode)])
  {
    var settings := [
      ("host", db.host), ("port", Format.IntToDecimal(db.port)), ("user", db.user),
      ("password", db.password), ("dbname", db.name), ("sslmode", db.sslMode)];
    var t5 := "sslmode" + "=" + db.sslMode;
    var t4 := "dbname" + "=" + db.name + " " + t5;
    var t3 := "password" + "=" + db.password + " " + t4;
    var t2 := "user" + "=" + db.user + " " + t3;
    var t1 := "port" + "=" + Format.IntToDecimal(db.port) + " " + t2;
    assert KeyValues(settings[5..]) == t5;
    assert settings[4..][1..] == settings[5..];
    KeyValuesStep(settings[4..], t5);
    assert settings[3..][1..] == settings[4..];
    KeyValuesStep(settings[3..], t4);
    assert settings[2..][1..] == settings[3..];
    KeyValuesStep(settings[2..], t3);
    assert settings[1..][1..] == settings[2..];
    KeyValuesStep(settings[1..], t2);
    KeyValuesStep(settings, t1);
    ConnectionStringNested(db);
  }
}
