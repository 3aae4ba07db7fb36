/** The port and hostname conventions of app/config.py: a board's three ports
    are fixed offsets of its id, and its DNS name is its short name, the
    two-digit id and the DDNS host. */
module Config {
  import opened Wrappers
  import opened Text

  /** Default of the `DDNS_HOST` setting (the environment variable of the
      same name overrides it; the model takes the host as a parameter). */
  const DefaultDdnsHost: string := "esp32gb.ddns.net"

  const WebserverBase: int := 8000
  const OtaBase: int := 8200
  const ApiBase: int := 6000

  datatype Ports = Ports(webserver: int, ota: int, api: int)

  /** `get_board_ports`: no range check is made on the id. */
  function BoardPorts(id: int): (p: Ports)
    ensures p.webserver - WebserverBase == p.ota - OtaBase == p.api - ApiBase == id
  {
    Ports(8000 + id, 8200 + id, 6000 + id)
  }

  /** The id that owns an OTA port (discovery runs the convention backwards). */
  function OtaPortOwner(port: int): (id: int)
    ensures BoardPorts(id).ota == port
  {
    port - OtaBase
  }

  /** Each port kind determines the id, so it is a one-to-one function of it. */
  lemma PortsDetermineId(i: int, j: int)
    ensures BoardPorts(i).webserver == BoardPorts(j).webserver <==> i == j
    ensures BoardPorts(i).ota == BoardPorts(j).ota <==> i == j
    ensures BoardPorts(i).api == BoardPorts(j).api <==> i == j
    ensures OtaPortOwner(BoardPorts(i).ota) == i
  {
  }

  /** For ids in 1..99 the three kinds occupy 8001-8099, 8201-8299 and
      6001-6099, so no port of one board is any port of another kind. */
  lemma PortRangesDisjoint(i: int, j: int)
    requires 1 <= i <= 99 && 1 <= j <= 99
    ensures 8001 <= BoardPorts(i).webserver <= 8099
    ensures 8201 <= BoardPorts(i).ota <= 8299
    ensures 6001 <= BoardPorts(i).api <= 6099
    ensures BoardPorts(i).webserver != BoardPorts(j).ota
    ensures BoardPorts(i).webserver != BoardPorts(j).api
    ensures BoardPorts(i).ota != BoardPorts(j).api
  {
  }

  // ---------------------------------------------------------------- hostnames

  /** The prefixes tried in order by `get_board_hostname`. */
  const NamePrefixes: seq<string> := ["cactus-", "esp32-", "esp-"]

  /** Strips the first prefix of `prefixes` that `name` starts with, and only
      that one. */
  function StripFirstPrefix(name: string, prefixes: seq<string>): (r: string)
    ensures |r| <= |name| && r == name[|name| - |r|..]
    decreases |prefixes|
  {
    if prefixes == [] then name
    else if StartsWith(name, prefixes[0]) then name[|prefixes[0]|..]
    else StripFirstPrefix(name, prefixes[1..])
  }

  /** StripFirstPrefix removes exactly the first matching prefix, and nothing
      when no prefix matches. */
  lemma {:induction false} StripFirstPrefixSpec(name: string, prefixes: seq<string>, k: nat)
    requires k <= |prefixes|
    requires forall i :: 0 <= i < k ==> !StartsWith(name, prefixes[i])
    ensures k < |prefixes| && StartsWith(name, prefixes[k]) ==>
      StripFirstPrefix(name, prefixes) == name[|prefixes[k]|..]
    ensures k == |prefixes| ==> StripFirstPrefix(name, prefixes) == name
    decreases k
  {
    if k > 0 {
      assert !StartsWith(name, prefixes[0]);
      forall i | 0 <= i < k - 1 ensures !StartsWith(name, prefixes[1..][i]) {
        assert prefixes[1..][i] == prefixes[i + 1];
      }
      StripFirstPrefixSpec(name, prefixes[1..], k - 1);
    }
  }

  /** The short name used in derived hostnames. */
  function ShortName(name: string): string {
    StripFirstPrefix(name, NamePrefixes)
  }

  /** `get_board_hostname`: a non-empty custom hostname wins verbatim,
      otherwise `{short}-{id:02d}.{ddns_host}`. */
  function BoardHostname(name: string, id: int, custom: Option<string>, ddnsHost: string): string {
    if Truthy(custom) then custom.value
    else ShortName(name) + "-" + ZeroPad2(id) + "." + ddnsHost
  }

  /** A non-empty custom hostname is returned as given, whatever the name and
      id; an empty one counts as absent. */
  lemma CustomHostnameWins(name: string, id: int, custom: string, ddnsHost: string)
    ensures custom != "" ==> BoardHostname(name, id, Some(custom), ddnsHost) == custom
    ensures custom == "" ==> BoardHostname(name, id, Some(custom), ddnsHost) == BoardHostname(name, id, None, ddnsHost)
  {
  }

  /** The worked example: "cactus-sentinel" with id 88 and the default host. */
  lemma SentinelExample()
    ensures BoardHostname("cactus-sentinel", 88, None, DefaultDdnsHost) == "sentinel-88.esp32gb.ddns.net"
    ensures BoardPorts(88) == Ports(8088, 8288, 6088)
  {
    SentinelShortName();
    assert ZeroPad2(88) == "88" by {
      assert NatToString(88) == NatToString(8) + [DigitChar(8)];
    }
  }

  lemma SentinelShortName()
    ensures ShortName("cactus-sentinel") == "sentinel"
  {
    assert StartsWith("cactus-sentinel", NamePrefixes[0]);
  }

  /** Only one prefix is removed: "esp32-esp-x" keeps its inner "esp-". */
  lemma OnePrefixOnly()
    ensures ShortName("esp32-esp-x") == "esp-x"
    ensures ShortName("sensor-1") == "sensor-1"
  {
    assert "esp32-esp-x"[..7][0] != NamePrefixes[0][0];
    assert StartsWith("esp32-esp-x", NamePrefixes[1]);
    StripFirstPrefixSpec("esp32-esp-x", NamePrefixes, 1);
    assert "sensor-1"[..7][0] != NamePrefixes[0][0];
    assert "sensor-1"[..6][0] != NamePrefixes[1][0];
    assert "sensor-1"[..4][0] != NamePrefixes[2][0];
    StripFirstPrefixSpec("sensor-1", NamePrefixes, 3);
  }

  /** Without a custom hostname, two valid ids under one board name never
      share a derived hostname: the two id digits sit at a fixed position. */
  lemma {:induction false} DerivedHostnamesDistinct(name: string, i: int, j: int, ddnsHost: string)
    requires 1 <= i <= 99 && 1 <= j <= 99 && i != j
    ensures BoardHostname(name, i, None, ddnsHost) != BoardHostname(name, j, None, ddnsHost)
  {
    var s := ShortName(name) + "-";
    var hi, hj := BoardHostname(name, i, None, ddnsHost), BoardHostname(name, j, None, ddnsHost);
    ZeroPad2TwoDigits(i);
    ZeroPad2TwoDigits(j);
    assert hi == s + ZeroPad2(i) + ("." + ddnsHost);
    assert hj == s + ZeroPad2(j) + ("." + ddnsHost);
    assert hi[|s|..|s| + 2] == ZeroPad2(i);
    assert hj[|s|..|s| + 2] == ZeroPad2(j);
  }
}
