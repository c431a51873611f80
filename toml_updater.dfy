/** Recording the cluster IP of the private 8B service in a TOML file: the
    service listing is read as a table whose header row names the columns. */
module TomlUpdater {

  import opened Base
  import opened PyStr
  import opened Seqs
  import opened Docs
  import opened Platform

  function ServicesCmd(ns: string): Command {
    Kubectl(["get", "svc", "-n", ns])
  }

  /** `list.index(x)`: the first position holding `x`, else `ValueError`. */
  function IndexOf(s: seq<string>, x: string): (r: Result<nat>)
    ensures r.Ok? <==> x in s
    ensures r.Ok? ==> r.value < |s| && s[r.value] == x && forall j :: 0 <= j < r.value ==> s[j] != x
    ensures r.Raise? ==> r.exc == ValueError(x)
    decreases |s|
  {
    if s == [] then Raise(ValueError(x))
    else if s[0] == x then Ok(0)
    else
      match IndexOf(s[1..], x)
      case Raise(e) => Raise(e)
      case Ok(i) =>
        assert forall j :: 1 <= j < |s| ==> s[j] == s[1..][j - 1];
        Ok(i + 1)
  }

  /** The service sought: a name ending in `private` that contains
      `8b-bf16-tp1-pp1`. */
  predicate IsTargetService(name: string) {
    EndsWith(name, "private") && Contains(name, "8b-bf16-tp1-pp1")
  }

  /** A row the scan goes past: its name column exists and is not the
      target. */
  function PassesRow(ni: nat): string -> bool {
    row => var c := Words(row); ni < |c| && !IsTargetService(c[ni])
  }

  function StopsRow(ni: nat): string -> bool {
    row => !PassesRow(ni)(row)
  }

  /** The scan over the service rows: a row too short for the name column
      raises `IndexError`; the first target row yields its cluster-IP column
      (again `IndexError` if the row is too short for it). */
  function ScanServices(rows: seq<string>, ni: nat, ci: nat): Result<Option<string>>
    decreases |rows|
  {
    if rows == [] then Ok(None)
    else
      var c := Words(rows[0]);
      if ni >= |c| then Raise(IndexError)
      else if IsTargetService(c[ni]) then (if ci < |c| then Ok(Some(c[ci])) else Raise(IndexError))
      else ScanServices(rows[1..], ni, ci)
  }

  /** The scan ends at the first row it does not go past. */
  lemma {:induction false} ScanServicesFirst(rows: seq<string>, ni: nat, ci: nat)
    ensures var k := FirstIndex(rows, StopsRow(ni));
      ScanServices(rows, ni, ci) ==
        if k == |rows| then Ok(None)
        else
          var c := Words(rows[k]);
          if ni < |c| && ci < |c| then Ok(Some(c[ci])) else Raise(IndexError)
    decreases |rows|
  {
    if rows != [] && PassesRow(ni)(rows[0]) {
      ScanServicesFirst(rows[1..], ni, ci);
      var k := FirstIndex(rows[1..], StopsRow(ni));
      if k < |rows| - 1 {
        assert rows[1..][k] == rows[k + 1];
      }
    }
  }

  /** The `for` loop over the rows after the header. */
  method FindServiceIp(rows: seq<string>, ni: nat, ci: nat) returns (r: Result<Option<string>>)
    ensures r == ScanServices(rows, ni, ci)
  {
    var i := 0;
    while i < |rows|
      invariant 0 <= i <= |rows|
      invariant ScanServices(rows, ni, ci) == ScanServices(rows[i..], ni, ci)
      decreases |rows| - i
    {
      assert rows[i..][1..] == rows[i + 1..];
      var columns := Words(rows[i]);
      if ni >= |columns| {
        return Raise(IndexError);
      }
      var name := columns[ni];
      if IsTargetService(name) {
        if ci >= |columns| {
          return Raise(IndexError);
        }
        return Ok(Some(columns[ci]));
      }
      i := i + 1;
    }
    assert rows[i..] == [];
    return Ok(None);
  }

  /** The cluster IP a service listing gives: the header row locates the
      `NAME` and `CLUSTER-IP` columns (`ValueError` when one is missing),
      then the rows are scanned. */
  function ServiceIp(out: string): Result<Option<string>> {
    var lines := Split(Strip(out), "\n");
    var headers := Words(lines[0]);
    var ni :- IndexOf(headers, "NAME");
    var ci :- IndexOf(headers, "CLUSTER-IP");
    ScanServices(lines[1..], ni, ci)
  }

  /** A listing whose first line does not start, and whose last line does
      not end, with whitespace is read back line by line: stripping and
      splitting it yields its lines, so the header is its first line. */
  lemma ListingLines(lines: seq<string>)
    requires |lines| >= 1 && forall k :: 0 <= k < |lines| ==> '\n' !in lines[k]
    requires lines[0] != [] && !IsSpace(lines[0][0])
    requires lines[|lines| - 1] != [] && !IsSpace(lines[|lines| - 1][|lines[|lines| - 1]| - 1])
    ensures Split(Strip(Join(lines, "\n")), "\n") == lines
  {
    FirstLineNotSpace(lines);
    LastLineNotSpace(lines);
    StripNoop(Join(lines, "\n"));
    SplitJoin(lines, '\n');
  }

  /** A header row printed as space-separated column names locates both
      columns by name. */
  lemma HeaderColumns(header: seq<string>, ni: nat, ci: nat)
    requires forall k :: 0 <= k < |header| ==> IsWord(header[k])
    requires ni < |header| && header[ni] == "NAME" && forall j :: 0 <= j < ni ==> header[j] != "NAME"
    requires ci < |header| && header[ci] == "CLUSTER-IP" && forall j :: 0 <= j < ci ==> header[j] != "CLUSTER-IP"
    ensures IndexOf(Words(Join(header, " ")), "NAME") == Ok(ni)
    ensures IndexOf(Words(Join(header, " ")), "CLUSTER-IP") == Ok(ci)
  {
    WordsOfJoin(header);
    IndexOfFirst(header, "NAME", ni);
    IndexOfFirst(header, "CLUSTER-IP", ci);
  }

  /** The example listing's header and its one service row. */
  const ExampleHeaderLine := "NAME CLUSTER-IP PORT(S)"
  const ExampleRowLine := "llm-8b-bf16-tp1-pp1-private 10.0.0.5 8000/TCP"

  lemma ExampleLines()
    ensures Split(Strip(ExampleHeaderLine + "\n" + ExampleRowLine), "\n") == [ExampleHeaderLine, ExampleRowLine]
  {
    var lines := [ExampleHeaderLine, ExampleRowLine];
    assert Join(lines[1..], "\n") == ExampleRowLine;
    assert '\n' !in ExampleHeaderLine && '\n' !in ExampleRowLine;
    ListingLines(lines);
  }

  lemma ExampleHeader()
    ensures IndexOf(Words(ExampleHeaderLine), "NAME") == Ok(0)
    ensures IndexOf(Words(ExampleHeaderLine), "CLUSTER-IP") == Ok(1)
  {
    var header := ["NAME", "CLUSTER-IP", "PORT(S)"];
    assert Join(header[2..], " ") == "PORT(S)";
    assert Join(header[1..], " ") == "CLUSTER-IP PORT(S)";
    assert Join(header, " ") == "NAME" + " " + "CLUSTER-IP PORT(S)" == ExampleHeaderLine;
    assert IsWord("NAME") && IsWord("CLUSTER-IP") && IsWord("PORT(S)");
    HeaderColumns(header, 0, 1);
  }

  lemma ExampleRow()
    ensures Words(ExampleRowLine) == ["llm-8b-bf16-tp1-pp1-private", "10.0.0.5", "8000/TCP"]
  {
    var row := ["llm-8b-bf16-tp1-pp1-private", "10.0.0.5", "8000/TCP"];
    assert Join(row[2..], " ") == "8000/TCP";
    assert Join(row[1..], " ") == "10.0.0.5 8000/TCP";
    assert Join(row, " ") == "llm-8b-bf16-tp1-pp1-private" + " " + "10.0.0.5 8000/TCP" == ExampleRowLine;
    assert IsWord("llm-8b-bf16-tp1-pp1-private") && IsWord("10.0.0.5") && IsWord("8000/TCP");
    WordsOfJoin(row);
  }

  /** The example's service name is the target. */
  lemma ExampleTarget()
    ensures IsTargetService("llm-8b-bf16-tp1-pp1-private")
  {
    var n := "llm-8b-bf16-tp1-pp1-private";
    assert n == "llm-" + "8b-bf16-tp1-pp1" + "-" + "private";
    assert OccursAt(n, "8b-bf16-tp1-pp1", 4);
  }

  /** A listing whose header names `NAME` and `CLUSTER-IP` and whose one
      row is the private 8B service yields that row's cluster IP. */
  lemma ServiceIpExample()
    ensures ServiceIp(ExampleHeaderLine + "\n" + ExampleRowLine) == Ok(Some("10.0.0.5"))
  {
    var out := ExampleHeaderLine + "\n" + ExampleRowLine;
    ExampleLines();
    ExampleHeader();
    ServiceIpColumns(out, 0, 1);
    assert [ExampleHeaderLine, ExampleRowLine][1..] == [ExampleRowLine];
    ExampleScan();
  }

  /** Once the header has located both columns, the result is the scan of
      the rows after it. */
  lemma ServiceIpColumns(out: string, ni: nat, ci: nat)
    requires var lines := Split(Strip(out), "\n");
      IndexOf(Words(lines[0]), "NAME") == Ok(ni) && IndexOf(Words(lines[0]), "CLUSTER-IP") == Ok(ci)
    ensures ServiceIp(out) == ScanServices(Split(Strip(out), "\n")[1..], ni, ci)
  {
  }

  lemma ExampleScan()
    ensures ScanServices([ExampleRowLine], 0, 1) == Ok(Some("10.0.0.5"))
  {
    ExampleRow();
    ExampleTarget();
    assert [ExampleRowLine][1..] == [];
  }

  /** The index found is the first one holding `x`. */
  lemma IndexOfFirst(s: seq<string>, x: string, i: nat)
    requires i < |s| && s[i] == x && forall j :: 0 <= j < i ==> s[j] != x
    ensures IndexOf(s, x) == Ok(i)
  {
    assert x in s;
  }

  lemma FirstLineNotSpace(lines: seq<string>)
    requires |lines| >= 1 && lines[0] != [] && !IsSpace(lines[0][0])
    ensures Join(lines, "\n") != [] && !IsSpace(Join(lines, "\n")[0])
  {
    if |lines| > 1 {
      JoinCons(lines[0], lines[1..], "\n");
      assert lines == [lines[0]] + lines[1..];
    } else {
      assert Join(lines, "\n") == lines[0];
    }
  }

  lemma {:induction false} LastLineNotSpace(lines: seq<string>)
    requires |lines| >= 1
    requires lines[|lines| - 1] != [] && !IsSpace(lines[|lines| - 1][|lines[|lines| - 1]| - 1])
    ensures var s := Join(lines, "\n"); s != [] && !IsSpace(s[|s| - 1])
    decreases |lines|
  {
    if |lines| > 1 {
      LastLineNotSpace(lines[1..]);
      JoinCons(lines[0], lines[1..], "\n");
      assert lines == [lines[0]] + lines[1..];
    } else {
      assert Join(lines, "\n") == lines[0];
    }
  }

  /** `if "values" not in data: data["values"] = {}` followed by
      `data["values"]["cluster_ip"] = ip`. */
  function WithClusterIp(v: Value, ip: string): Result<Value> {
    var has :- In("values", v);
    var base :- if has then Ok(v) else Assign(v, [], "values", Table(map[]));
    Assign(base, [Key("values")], "cluster_ip", Str(ip))
  }

  /** The update succeeds exactly on a table whose `values` entry is a
      table or absent; afterwards `values.cluster_ip` holds the IP and
      every other top-level entry is untouched; an already present
      `values` table keeps its other entries too. */
  lemma WithClusterIpSpec(v: Value, ip: string)
    ensures WithClusterIp(v, ip).Ok? <==> v.Table? && ("values" !in v.fields || v.fields["values"].Table?)
    ensures !v.Table? ==> WithClusterIp(v, ip) == Raise(TypeError)
    ensures WithClusterIp(v, ip).Ok? ==> Get(WithClusterIp(v, ip).value, [Key("values"), Key("cluster_ip")]) == Ok(Str(ip))
    ensures WithClusterIp(v, ip).Ok? ==> forall q :: Diverge([Key("values")], q) ==> Get(WithClusterIp(v, ip).value, q) == Get(v, q)
    ensures WithClusterIp(v, ip).Ok? && "values" in v.fields ==>
      forall q :: Diverge([Key("values"), Key("cluster_ip")], q) ==> Get(WithClusterIp(v, ip).value, q) == Get(v, q)
  {
    var vals := [Key("values")];
    assert [Key("values"), Key("values")][1..] == [Key("values")];
    assert Get(v, vals) == Child(v, Key("values")) by {
      assert vals[1..] == [];
    }
    if v.Table? {
      var base := if "values" in v.fields then v else Assign(v, [], "values", Table(map[])).value;
      assert Get(base, vals) == Child(base, Key("values")) by {
        assert vals[1..] == [];
      }
      if "values" !in v.fields {
        assert [] + [Key("values")] == vals;
        assert Get(base, vals) == Ok(Table(map[]));
      }
      if WithClusterIp(v, ip).Ok? {
        forall q | Diverge(vals, q) ensures Get(WithClusterIp(v, ip).value, q) == Get(v, q) {
          DivergeBelow(vals, [Key("cluster_ip")], q);
          assert vals + [Key("cluster_ip")] == [Key("values"), Key("cluster_ip")];
          if "values" !in v.fields {
            assert [] + [Key("values")] == vals;
          }
        }
      }
    }
  }

  /** The IP a listing yields: a successful listing with a target service. */
  function ListedIp(listing: Proc): Option<string> {
    match Checked(listing)
    case Raise(_) => None
    case Ok(p) =>
      match ServiceIp(p.out)
      case Ok(Some(ip)) => Some(ip)
      case _ => None
  }

  /** The file update the step makes, if it makes one: a listed IP, a
      loaded file and a successful edit. */
  function ClusterIpUpdate(listing: Proc, loaded: Result<Value>): Option<Value> {
    match ListedIp(listing)
    case None => None
    case Some(ip) => IpUpdate(loaded, ip)
  }

  /** The edited file once an IP is known: a loaded file and a successful edit. */
  function IpUpdate(loaded: Result<Value>, ip: string): Option<Value> {
    match loaded
    case Ok(v) => (match WithClusterIp(v, ip) case Ok(d) => Some(d) case Raise(_) => None)
    case Raise(_) => None
  }

  /** The file is rewritten only when a target service was listed, and then
      it records that service's IP. */
  lemma ClusterIpUpdateRecords(listing: Proc, loaded: Result<Value>)
    requires ClusterIpUpdate(listing, loaded).Some?
    ensures listing.Exit? && listing.code == 0 && loaded.Ok?
    ensures ServiceIp(listing.out).Ok? && ServiceIp(listing.out).value.Some?
    ensures Get(ClusterIpUpdate(listing, loaded).value, [Key("values"), Key("cluster_ip")]) == Ok(Str(ServiceIp(listing.out).value.value))
  {
    WithClusterIpSpec(loaded.value, ServiceIp(listing.out).value.value);
  }

  /** `update_cluster_ip_in_toml`: every failure is caught and printed, so
      nothing is raised; the file is loaded only once the service is
      found, and written at most once. */
  method UpdateClusterIpInToml(h: Host, ns: string, path: string)
    modifies h`calls, h`files
    ensures h.calls == old(h.calls) + [ServicesCmd(ns)]
    ensures match ClusterIpUpdate(h.respond(|old(h.calls)|), old(h.Load(path)))
      case None => h.files == old(h.files)
      case Some(d) => h.files == if h.canWrite(path) then old(h.files)[path := Doc(d)] else old(h.files)
  {
    var ip := ListServiceIp(h, ns);
    if ip.None? {
      return;
    }
    WriteClusterIp(h, path, ip.value);
  }

  /** The first part of the step: one service listing, and the IP of the
      first target service in it. */
  method ListServiceIp(h: Host, ns: string) returns (ip: Option<string>)
    modifies h`calls
    ensures h.calls == old(h.calls) + [ServicesCmd(ns)]
    ensures ip == ListedIp(h.respond(|old(h.calls)|))
  {
    var listing := h.Run(ServicesCmd(ns));
    if Checked(listing).Raise? {
      return None;
    }
    var lines := Split(Strip(listing.out), "\n");
    var headers := Words(lines[0]);
    var ni := IndexOf(headers, "NAME");
    var ci := IndexOf(headers, "CLUSTER-IP");
    if ni.Raise? || ci.Raise? {
      return None;
    }
    var found := FindServiceIp(lines[1..], ni.value, ci.value);
    assert found == ServiceIp(listing.out);
    if found.Raise? || found.value.None? {
      return None;
    }
    return Some(found.value.value);
  }

  /** The part of the step once the IP is known: load, edit and write. */
  method WriteClusterIp(h: Host, path: string, ip: string)
    modifies h`files
    ensures match IpUpdate(old(h.Load(path)), ip)
      case None => h.files == old(h.files)
      case Some(d) => h.files == if h.canWrite(path) then old(h.files)[path := Doc(d)] else old(h.files)
  {
    var loaded := h.Load(path);
    if loaded.Raise? {
      return;
    }
    var updated := WithClusterIp(loaded.value, ip);
    if updated.Raise? {
      return;
    }
    var _ := h.Dump(path, updated.value);
  }
}
