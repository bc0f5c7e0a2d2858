/** Comparing a replayed month with the recorded one (deploy/ira-replay.py).

    An order is named by a client order ID drawn afresh in each run, and cited by IDs built from it. Two runs
    agree when one is the other with its orders renamed, and that is what comparing the two normalised lists
    decides. */
module Replay {
  import opened Wrappers

  /** A JSON value. An atom is a number, true, false or null, one value for all that the language calls equal. */
  datatype Json = Text(text: string) | Atom(value: int) | Arr(items: seq<Json>) | Obj(fields: map<string, Json>)

  type Row = map<string, Json>

  // ----- Order identities -----

  datatype Kind = Planned | Released | Refused

  function Prefix(k: Kind): string {
    match k
    case Planned => "order-planned:"
    case Released => "risk-order-released:"
    case Refused => "risk-order-refused:"
  }

  function KindOf(row: Row): Option<Kind> {
    if "type" !in row then None
    else if row["type"] == Text("strategy.order.planned") then Some(Planned)
    else if row["type"] == Text("risk.order.released") then Some(Released)
    else if row["type"] == Text("risk.order.refused") then Some(Refused)
    else None
  }

  datatype Ident = Ident(kind: Kind, client: string)

  predicate StartsWith(s: string, p: string) {
    |p| <= |s| && s[..|p|] == p
  }

  /** The order an ID cites, if it is built as one. */
  function Parse(s: string): (r: Option<Ident>)
    ensures r.Some? ==> s == Prefix(r.value.kind) + r.value.client
  {
    if StartsWith(s, Prefix(Planned)) then Some(Ident(Planned, s[|Prefix(Planned)|..]))
    else if StartsWith(s, Prefix(Released)) then Some(Ident(Released, s[|Prefix(Released)|..]))
    else if StartsWith(s, Prefix(Refused)) then Some(Ident(Refused, s[|Prefix(Refused)|..]))
    else None
  }

  function Spell(i: Ident): string {
    Prefix(i.kind) + i.client
  }

  /** No prefix begins another, so an ID is read back as the one it was built from. */
  lemma ParseSpell(i: Ident)
    ensures Parse(Spell(i)) == Some(i)
  {
    var s := Spell(i);
    var p := Prefix(i.kind);
    assert s[..|p|] == p && s[|p|..] == i.client;
    assert s[0] == p[0] && s[11] == p[11] && s[13] == p[13];
  }

  // ----- The identities of a list -----

  /** The planned clients in order of their plans, and every order row seen. */
  datatype Table = Table(order: seq<string>, seen: set<Ident>)

  function Field(m: map<string, Json>, key: string): Option<Json> {
    if key in m then Some(m[key]) else None
  }

  /** The first loop's checks of one row, and the table with it; None is a refusal. */
  function Visit(t: Table, row: Row): Option<Table> {
    if "type" !in row || row["type"].Arr? || row["type"].Obj? then None
    else if KindOf(row).None? then Some(t)
    else if "payload" !in row || !row["payload"].Obj? then None
    else
      var kind, payload := KindOf(row).value, row["payload"].fields;
      match Field(payload, "client_order_id")
      case Some(Text(client)) =>
        var ident := Ident(kind, client);
        if client == "" || Field(row, "id") != Some(Text(Spell(ident))) || ident in t.seen then None
        else if kind == Planned then
          if client in t.order then None else Some(Table(t.order + [client], t.seen + {ident}))
        else if client !in t.order || Field(payload, "plan_id") != Some(Text(Spell(Ident(Planned, client)))) then None
        else if Ident(Released, client) in t.seen || Ident(Refused, client) in t.seen then None
        else Some(t.(seen := t.seen + {ident}))
      case _ => None
  }

  function Scan(t: Table, rows: seq<Row>): Option<Table>
    decreases |rows|
  {
    if rows == [] then Some(t)
    else
      var t' := Visit(t, rows[0]);
      if t'.None? then None else Scan(t'.value, rows[1..])
  }

  const NoOrders: Table := Table([], {})

  // ----- Renaming -----

  const DroppedKeys: set<string> := {"sequence", "strategy_version", "configuration_hash", "payload_hash"}
  const CitingKeys: set<string> := {"id", "causation_id", "correlation_id"}

  function RenameRef(f: map<string, string>, v: Json): Json {
    if v.Text? && Parse(v.text).Some? && Parse(v.text).value.client in f
    then Text(Spell(Ident(Parse(v.text).value.kind, f[Parse(v.text).value.client])))
    else v
  }

  function RenameClient(f: map<string, string>, v: Json): Json {
    if v.Text? && v.text in f then Text(f[v.text]) else v
  }

  function RenamePayloadField(f: map<string, string>, k: string, v: Json): Json {
    if k == "client_order_id" then RenameClient(f, v) else if k == "plan_id" then RenameRef(f, v) else v
  }

  function RenameField(f: map<string, string>, order: bool, k: string, v: Json): Json {
    if k == "payload" then
      if order && v.Obj? then Obj(map p | p in v.fields :: RenamePayloadField(f, p, v.fields[p])) else v
    else if k in CitingKeys then RenameRef(f, v)
    else v
  }

  /** A row with its orders renamed, and without the four fields a replay may change. */
  function RenameRow(f: map<string, string>, row: Row): Row {
    map k | k in row && k !in DroppedKeys :: RenameField(f, KindOf(row).Some?, k, row[k])
  }

  function Undropped(row: Row): Row {
    map k | k in row && k !in DroppedKeys :: row[k]
  }

  predicate Injective(f: map<string, string>) {
    forall a, b :: a in f && b in f && f[a] == f[b] ==> a == b
  }

  /** Every ID in it that is built as an order's cites one that was seen; IDs are strings. */
  predicate Resolves(t: Table, v: Json) {
    v.Text? && (Parse(v.text).Some? ==> Parse(v.text).value in t.seen)
  }

  predicate RowResolves(t: Table, row: Row) {
    && "payload" in row && row["payload"].Obj?
    && (forall k :: k in CitingKeys && k in row ==> Resolves(t, row[k]))
    && (KindOf(row).Some? && "plan_id" in row["payload"].fields ==> Resolves(t, row["payload"].fields["plan_id"]))
  }

  // ----- Canonical names -----

  function Digit(d: nat): char
    requires d < 10
  {
    ('0' as int + d) as char
  }

  function Decimal(n: nat): string {
    if n < 10 then [Digit(n)] else Decimal(n / 10) + [Digit(n % 10)]
  }

  function Name(n: nat): string {
    "<order-" + Decimal(n) + ">"
  }

  lemma {:induction false} DecimalInjective(m: nat, n: nat)
    requires Decimal(m) == Decimal(n)
    ensures m == n
    decreases m
  {
    DecimalLength(m);
    DecimalLength(n);
    var s := Decimal(m);
    assert s[|s| - 1] == Digit(m % 10) == Digit(n % 10);
    if m >= 10 {
      assert s[..|s| - 1] == Decimal(m / 10) == Decimal(n / 10);
      DecimalInjective(m / 10, n / 10);
    }
  }

  lemma DecimalLength(n: nat)
    ensures |Decimal(n)| >= 1 && (n >= 10 <==> |Decimal(n)| > 1)
  {
  }

  lemma NameInjective(m: nat, n: nat)
    requires Name(m) == Name(n)
    ensures m == n
  {
    var k := |Name(m)| - 1;
    assert Name(m)[7..k] == Decimal(m) && Name(n)[7..k] == Decimal(n);
    DecimalInjective(m, n);
  }

  predicate Distinct(order: seq<string>) {
    forall i, j :: 0 <= i < j < |order| ==> order[i] != order[j]
  }

  function IndexOf(order: seq<string>, c: string): (i: nat)
    requires c in order
    ensures i < |order| && order[i] == c
  {
    if order[0] == c then 0 else 1 + IndexOf(order[1..], c)
  }

  /** Each planned client's canonical name: its place among the plans. */
  function Names(order: seq<string>): (f: map<string, string>)
    ensures f.Keys == set c | c in order
    ensures Distinct(order) ==> forall i :: 0 <= i < |order| ==> f[order[i]] == Name(i)
  {
    map c | c in order :: Name(IndexOf(order, c))
  }

  lemma NamesInjective(order: seq<string>)
    ensures Injective(Names(order))
  {
    var f := Names(order);
    forall a, b | a in f && b in f && f[a] == f[b] ensures a == b {
      NameInjective(IndexOf(order, a), IndexOf(order, b));
    }
  }

  /** normalize_orders: None where it refuses the list. */
  function Normalize(rows: seq<Row>): Option<seq<Row>> {
    var t := Scan(NoOrders, rows);
    if t.None? || exists i :: 0 <= i < |rows| && !RowResolves(t.value, rows[i]) then None
    else Some(seq(|rows|, i requires 0 <= i < |rows| => RenameRow(Names(t.value.order), rows[i])))
  }

  // ----- Renaming composes and is undone -----

  function Compose(g: map<string, string>, f: map<string, string>): map<string, string>
    requires forall c :: c in f ==> f[c] in g
  {
    map c | c in f :: g[f[c]]
  }

  predicate RefIn(f: map<string, string>, v: Json) {
    v.Text? && (Parse(v.text).Some? ==> Parse(v.text).value.client in f)
  }

  lemma RefComposes(g: map<string, string>, f: map<string, string>, v: Json)
    requires (forall c :: c in f ==> f[c] in g) && RefIn(f, v)
    ensures RenameRef(g, RenameRef(f, v)) == RenameRef(Compose(g, f), v) && RefIn(g, RenameRef(f, v))
  {
    if Parse(v.text).Some? {
      var i := Parse(v.text).value;
      ParseSpell(Ident(i.kind, f[i.client]));
    }
  }

  lemma RefInjective(g: map<string, string>, u: Json, v: Json)
    requires Injective(g) && RefIn(g, u) && RefIn(g, v) && RenameRef(g, u) == RenameRef(g, v)
    ensures u == v
  {
    var i, j := Parse(u.text), Parse(v.text);
    if i.Some? { ParseSpell(Ident(i.value.kind, g[i.value.client])); }
    if j.Some? { ParseSpell(Ident(j.value.kind, g[j.value.client])); }
  }

  /** What renaming by f may meet in a row: orders f renames. */
  predicate RowIn(f: map<string, string>, row: Row) {
    && "payload" in row && row["payload"].Obj?
    && (forall k :: k in CitingKeys && k in row ==> RefIn(f, row[k]))
    && (KindOf(row).Some? ==>
          var payload := row["payload"].fields;
          && ("plan_id" in payload ==> RefIn(f, payload["plan_id"]))
          && "client_order_id" in payload && payload["client_order_id"].Text? && payload["client_order_id"].text in f)
  }

  lemma KindKept(f: map<string, string>, row: Row)
    ensures KindOf(RenameRow(f, row)) == KindOf(row) == KindOf(Undropped(row))
  {
    assert "type" !in DroppedKeys && "type" !in CitingKeys;
    var r := RenameRow(f, row);
    assert "type" in row <==> "type" in r;
    assert "type" in row ==> r["type"] == row["type"];
  }

  lemma FieldComposes(g: map<string, string>, f: map<string, string>, row: Row, k: string)
    requires (forall c :: c in f ==> f[c] in g) && RowIn(f, row) && k in row
    ensures var order := KindOf(row).Some?;
            RenameField(g, order, k, RenameField(f, order, k, row[k])) == RenameField(Compose(g, f), order, k, row[k])
  {
    if k == "payload" {
      if KindOf(row).Some? {
        var fields := row[k].fields;
        forall p | p in fields
          ensures RenamePayloadField(g, p, RenamePayloadField(f, p, fields[p])) ==
                  RenamePayloadField(Compose(g, f), p, fields[p])
        {
          if p == "plan_id" { RefComposes(g, f, fields[p]); }
        }
      }
    } else if k in CitingKeys {
      RefComposes(g, f, row[k]);
    }
  }

  lemma RowComposes(g: map<string, string>, f: map<string, string>, row: Row)
    requires (forall c :: c in f ==> f[c] in g) && RowIn(f, row)
    ensures RenameRow(g, RenameRow(f, row)) == RenameRow(Compose(g, f), row)
  {
    KindKept(f, row);
    var once := RenameRow(f, row);
    forall k | k in once ensures RenameField(g, KindOf(once).Some?, k, once[k]) ==
        RenameField(Compose(g, f), KindOf(row).Some?, k, row[k]) {
      FieldComposes(g, f, row, k);
    }
  }

  lemma RowInAfter(g: map<string, string>, f: map<string, string>, row: Row)
    requires (forall c :: c in f ==> f[c] in g) && RowIn(f, row)
    ensures RowIn(g, RenameRow(f, row))
  {
    KindKept(f, row);
    var once := RenameRow(f, row);
    assert "payload" in once;
    forall k | k in CitingKeys && k in once ensures RefIn(g, once[k]) {
      RefComposes(g, f, row[k]);
    }
    if KindOf(row).Some? {
      var payload, payload' := row["payload"].fields, once["payload"].fields;
      assert payload'["client_order_id"] == RenameClient(f, payload["client_order_id"]);
      if "plan_id" in payload' { RefComposes(g, f, payload["plan_id"]); }
    }
  }

  lemma FieldInjective(g: map<string, string>, u: Row, v: Row, k: string)
    requires Injective(g) && RowIn(g, u) && RowIn(g, v) && k in u && k in v && KindOf(u) == KindOf(v)
    requires RenameField(g, KindOf(u).Some?, k, u[k]) == RenameField(g, KindOf(v).Some?, k, v[k])
    ensures u[k] == v[k]
  {
    if k == "payload" {
      if KindOf(u).Some? {
        PayloadInjective(g, u, v);
      }
    } else if k in CitingKeys {
      RefInjective(g, u[k], v[k]);
    }
  }

  lemma PayloadInjective(g: map<string, string>, u: Row, v: Row)
    requires Injective(g) && RowIn(g, u) && RowIn(g, v) && KindOf(u).Some? && KindOf(v).Some?
    requires RenameField(g, true, "payload", u["payload"]) == RenameField(g, true, "payload", v["payload"])
    ensures u["payload"] == v["payload"]
  {
    var a, b := u["payload"].fields, v["payload"].fields;
    var a' := map p | p in a :: RenamePayloadField(g, p, a[p]);
    var b' := map p | p in b :: RenamePayloadField(g, p, b[p]);
    assert a' == b';
    assert a.Keys == a'.Keys == b'.Keys == b.Keys;
    forall p | p in a ensures a[p] == b[p] {
      assert a'[p] == b'[p];
      if p == "plan_id" { RefInjective(g, a[p], b[p]); }
    }
    assert a == b;
  }

  lemma RowInjective(g: map<string, string>, u: Row, v: Row)
    requires Injective(g) && RowIn(g, u) && RowIn(g, v) && RenameRow(g, u) == RenameRow(g, v)
    ensures Undropped(u) == Undropped(v)
  {
    KindKept(g, u);
    KindKept(g, v);
    var a, b := RenameRow(g, u), RenameRow(g, v);
    assert Undropped(u).Keys == a.Keys == b.Keys == Undropped(v).Keys;
    forall k | k in a ensures u[k] == v[k] {
      assert a[k] == b[k];
      FieldInjective(g, u, v, k);
    }
  }

  /** Renaming looks at nothing that is dropped. */
  lemma RenameUndropped(f: map<string, string>, row: Row)
    ensures RenameRow(f, Undropped(row)) == RenameRow(f, row) && Undropped(RenameRow(f, row)) == RenameRow(f, row)
  {
    KindKept(f, row);
  }
}
