/** Rows of the host override table and the bodies that write them (internal/opnsense/dto.go). */
module Rows {
  import opened Names
  import opened Order

  const TYPE_A := "A"
  const TYPE_AAAA := "AAAA"
  const TYPE_TXT := "TXT"
  const TYPE_MX := "MX"
  const MAX_TXT_BYTES := 255

  /** The firewall's identity of a row. */
  type Uuid = nat

  datatype Option<+T> = None | Some(value: T)

  /** A record set: name plus type. */
  datatype RowKey = RowKey(name: string, rr: string)

  /** A host alias hanging off a row. */
  datatype Child = Child(enabled: string, hostname: string, domain: string)

  datatype Row = Row(
    uuid: Uuid, enabled: string, hostname: string, domain: string, rr: string, server: string,
    txtData: string, mx: string, mxPrio: string, ttl: string, addPtr: string, description: string,
    isAlias: bool, children: seq<Child>)

  /** The body of addHostOverride and setHostOverride. */
  datatype Fields = Fields(
    enabled: string, hostname: string, domain: string, rr: string, server: string,
    txtData: string, ttl: string, addPtr: string, description: string)

  /** The columns of a row that the apply path reads and writes. */
  datatype Core = Core(
    hostname: string, domain: string, rr: string, server: string, txtData: string,
    ttl: string, addPtr: string, description: string, children: seq<Child>)

  predicate HasUuid(rows: seq<Row>, u: Uuid) {
    exists i | 0 <= i < |rows| :: rows[i].uuid == u
  }

  predicate Distinct(rows: seq<Row>) {
    forall i, j | 0 <= i < j < |rows| :: rows[i].uuid != rows[j].uuid
  }

  function Uuids(rows: seq<Row>): set<Uuid> {
    set i | 0 <= i < |rows| :: rows[i].uuid
  }

  /** Rows with identities of their own have as many identities as there are rows. */
  lemma UuidCount(rows: seq<Row>)
    requires Distinct(rows)
    ensures |Uuids(rows)| == |rows|
  {
    var us := seq(|rows|, i requires 0 <= i < |rows| => rows[i].uuid);
    DistinctCount(us);
    forall u ensures u in Uuids(rows) <==> u in ElementsOf(us) {
      if i :| 0 <= i < |rows| && rows[i].uuid == u { assert us[i] == u; }
    }
    assert Uuids(rows) == ElementsOf(us);
  }

  predicate IsEnabled(enabled: string) {
    enabled != "0" && enabled != ""
  }

  function KeyOf(r: Row): RowKey {
    RowKey(JoinName(r.hostname, r.domain), r.rr)
  }

  function FieldsKey(f: Fields): RowKey {
    RowKey(JoinName(f.hostname, f.domain), f.rr)
  }

  /** Enabled and top-level: the rows the index files and Unbound serves at their own name. */
  predicate Visible(r: Row) {
    IsEnabled(r.enabled) && !r.isAlias
  }

  predicate VisibleAt(r: Row, k: RowKey) {
    Visible(r) && KeyOf(r) == k
  }

  function CoreOf(r: Row): Core {
    Core(r.hostname, r.domain, r.rr, r.server, r.txtData, r.ttl, r.addPtr, r.description, r.children)
  }

  /** A row's columns after a write of f: the identity and the aliases stay. */
  function CoreWrite(c: Core, f: Fields): Core {
    Core(f.hostname, f.domain, f.rr, f.server, f.txtData, f.ttl, f.addPtr, f.description, c.children)
  }

  function CoreNew(f: Fields): Core {
    Core(f.hostname, f.domain, f.rr, f.server, f.txtData, f.ttl, f.addPtr, f.description, [])
  }

  predicate IsTXT(rr: string) {
    rr == TYPE_TXT
  }

  /** The target as compared on write. */
  function BareTarget(c: Core): string {
    if IsTXT(c.rr) then c.txtData else c.server
  }

  /** The target a write carries. */
  function WriteTarget(f: Fields): string {
    if IsTXT(f.rr) then f.txtData else f.server
  }

  predicate EnabledChildren(children: seq<Child>) {
    exists i | 0 <= i < |children| :: IsEnabled(children[i].enabled)
  }

  /** The first write column in which the row does not read as the write described it. */
  predicate DiffersFrom(c: Core, want: Fields) {
    || JoinName(c.hostname, c.domain) != JoinName(want.hostname, want.domain)
    || c.rr != want.rr
    || BareTarget(c) != WriteTarget(want)
    || ParseTTL(c.ttl) != ParseTTL(want.ttl)
    || c.description != want.description
    || c.addPtr != want.addPtr
  }

  /** The firewall's own check of a write body. */
  predicate Acceptable(f: Fields) {
    && f.hostname != ""
    && f.domain != ""
    && (f.rr == TYPE_A || f.rr == TYPE_AAAA ==> f.server != "")
    && (f.rr == TYPE_TXT ==> 0 < |f.txtData| <= MAX_TXT_BYTES)
    && (f.rr == TYPE_A || f.rr == TYPE_AAAA || f.rr == TYPE_TXT || f.rr == TYPE_MX)
  }

  // TXT values.

  predicate Printable(c: char) {
    ' ' <= c <= '~' && c != '"' && c != '\\'
  }

  /** One surrounding pair of quotes around 1..255 printable characters with no inner quote or backslash. */
  predicate ValidTXT(target: string) {
    && 3 <= |target| <= MAX_TXT_BYTES + 2
    && target[0] == '"' && target[|target| - 1] == '"'
    && forall i | 1 <= i < |target| - 1 :: Printable(target[i])
  }

  function BareTXT(target: string): string
    requires ValidTXT(target)
  {
    target[1..|target| - 1]
  }

  /** validateTXT: the bare value, or None for a target the model or DNS cannot hold. */
  method ValidateTXT(target: string) returns (r: Option<string>)
    ensures r == if ValidTXT(target) then Some(BareTXT(target)) else None
  {
    if |target| < 2 || target[0] != '"' || target[|target| - 1] != '"' {
      return None;
    }
    var bare := target[1..|target| - 1];
    if bare == "" || |bare| > MAX_TXT_BYTES {
      return None;
    }
    var i := 0;
    while i < |bare|
      invariant 0 <= i <= |bare|
      invariant forall j | 1 <= j <= i :: Printable(target[j])
    {
      var c := bare[i];
      if c < ' ' || c > '~' || c == '"' || c == '\\' {
        assert !Printable(target[i + 1]);
        return None;
      }
      i := i + 1;
    }
    return Some(bare);
  }

  function RestoreTXTQuotes(s: string): string {
    if |s| >= 2 && s[0] == '"' && s[|s| - 1] == '"' then s else "\"" + s + "\""
  }

  /** Quoting the stored value gives back the target external-dns asked for. */
  lemma TXTRoundTrip(target: string)
    requires ValidTXT(target)
    ensures RestoreTXTQuotes(BareTXT(target)) == target
  {
    assert BareTXT(target)[0] == target[1];
  }

  /** The endpoint target a row represents. */
  function PublishedTarget(r: Row): string {
    if r.rr == TYPE_TXT then RestoreTXTQuotes(r.txtData)
    else if r.rr == TYPE_MX then r.mxPrio + " " + r.mx
    else r.server
  }
}
