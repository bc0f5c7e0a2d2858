/** normalize_orders, first_difference and compare_month as programs (deploy/ira-replay.py). */
module ReplayProgram {
  import opened Wrappers
  import opened Replay
  import opened ReplayTheorems

  // ----- The first difference of two JSON values -----

  datatype Step = Key(key: string) | Index(index: nat)

  datatype Why = MissingField | LengthsDiffer | ValuesDiffer

  datatype Difference = Difference(path: seq<Step>, why: Why)

  /** The language's sorting of a set of keys: a list of exactly its elements. */
  ghost predicate Lists(sorted: set<string> -> seq<string>) {
    forall s, k :: k in sorted(s) <==> k in s
  }

  function Under(step: Step, d: Option<Difference>): Option<Difference> {
    if d.None? then None else Some(Difference([step] + d.value.path, d.value.why))
  }

  function FirstDifference(sorted: set<string> -> seq<string>, expected: Json, actual: Json): Option<Difference>
    decreases expected, 1, 0
  {
    if expected.Obj? && actual.Obj? then
      FirstField(sorted, expected, actual, sorted(expected.fields.Keys + actual.fields.Keys))
    else if expected.Arr? && actual.Arr? then FirstItem(sorted, expected, actual, 0)
    else if expected != actual then Some(Difference([], ValuesDiffer))
    else None
  }

  function FirstField(sorted: set<string> -> seq<string>, expected: Json, actual: Json,
                      keys: seq<string>): Option<Difference>
    requires expected.Obj? && actual.Obj?
    decreases expected, 0, |keys|
  {
    if keys == [] then None
    else
      var k := keys[0];
      if k !in expected.fields || k !in actual.fields then Some(Difference([Key(k)], MissingField))
      else
        var d := Under(Key(k), FirstDifference(sorted, expected.fields[k], actual.fields[k]));
        if d.Some? then d else FirstField(sorted, expected, actual, keys[1..])
  }

  function FirstItem(sorted: set<string> -> seq<string>, expected: Json, actual: Json, i: nat): Option<Difference>
    requires expected.Arr? && actual.Arr? && i <= |expected.items| && i <= |actual.items|
    decreases expected, 0, |expected.items| - i
  {
    if i == |expected.items| || i == |actual.items| then
      if |expected.items| != |actual.items| then Some(Difference([], LengthsDiffer)) else None
    else
      var d := Under(Index(i), FirstDifference(sorted, expected.items[i], actual.items[i]));
      if d.Some? then d else FirstItem(sorted, expected, actual, i + 1)
  }

  /** Following the path in both values leads to the difference it names. */
  predicate Shows(expected: Json, actual: Json, d: Difference)
    decreases |d.path|
  {
    if d.path == [] then
      if d.why == LengthsDiffer then expected.Arr? && actual.Arr? && |expected.items| != |actual.items|
      else
        && d.why == ValuesDiffer && expected != actual
        && !(expected.Obj? && actual.Obj?) && !(expected.Arr? && actual.Arr?)
    else match d.path[0]
      case Key(k) =>
        expected.Obj? && actual.Obj?
        && if k in expected.fields && k in actual.fields
           then Shows(expected.fields[k], actual.fields[k], Difference(d.path[1..], d.why))
           else (k in expected.fields || k in actual.fields) && d == Difference([Key(k)], MissingField)
      case Index(i) =>
        expected.Arr? && actual.Arr? && i < |expected.items| && i < |actual.items|
        && expected.items[..i] == actual.items[..i]
        && Shows(expected.items[i], actual.items[i], Difference(d.path[1..], d.why))
  }

  /** No difference is found exactly when the values are equal, and one that is found is there, at the first
      place of its list. */
  lemma {:induction false} DifferenceExact(sorted: set<string> -> seq<string>, expected: Json, actual: Json)
    requires Lists(sorted)
    ensures FirstDifference(sorted, expected, actual) == None <==> expected == actual
    ensures FirstDifference(sorted, expected, actual).Some? ==>
              Shows(expected, actual, FirstDifference(sorted, expected, actual).value)
    decreases expected, 1, 0
  {
    if expected.Obj? && actual.Obj? {
      var keys := sorted(expected.fields.Keys + actual.fields.Keys);
      FieldsExact(sorted, expected, actual, keys);
      assert forall k :: k in keys <==> k in expected.fields || k in actual.fields;
      if FirstDifference(sorted, expected, actual) == None {
        assert expected.fields == actual.fields;
      }
    } else if expected.Arr? && actual.Arr? {
      ItemsExact(sorted, expected, actual, 0);
    }
  }

  predicate Agree(expected: Json, actual: Json, k: string)
    requires expected.Obj? && actual.Obj?
  {
    k in expected.fields && k in actual.fields && expected.fields[k] == actual.fields[k]
  }

  lemma {:induction false} FieldsExact(sorted: set<string> -> seq<string>, expected: Json, actual: Json,
                                       keys: seq<string>)
    requires Lists(sorted) && expected.Obj? && actual.Obj?
    requires forall k :: k in keys ==> k in expected.fields || k in actual.fields
    ensures FirstField(sorted, expected, actual, keys) == None <==> forall k :: k in keys ==> Agree(expected, actual, k)
    ensures FirstField(sorted, expected, actual, keys).Some? ==>
              Shows(expected, actual, FirstField(sorted, expected, actual, keys).value)
    decreases expected, 0, |keys|
  {
    if keys != [] {
      var k := keys[0];
      assert forall j :: j in keys <==> j == k || j in keys[1..];
      if k in expected.fields && k in actual.fields {
        DifferenceExact(sorted, expected.fields[k], actual.fields[k]);
        UnderShows(sorted, expected.fields[k], actual.fields[k], Key(k));
        FieldsExact(sorted, expected, actual, keys[1..]);
      }
      assert Agree(expected, actual, k) <==>
             k in expected.fields && k in actual.fields
                 && FirstDifference(sorted, expected.fields[k], actual.fields[k]) == None;
    }
  }

  lemma UnderShows(sorted: set<string> -> seq<string>, expected: Json, actual: Json, step: Step)
    ensures var d := FirstDifference(sorted, expected, actual);
            d.Some? ==> Under(step, d).value.path[1..] == d.value.path
  {
  }

  lemma {:induction false} ItemsExact(sorted: set<string> -> seq<string>, expected: Json, actual: Json, i: nat)
    requires Lists(sorted) && expected.Arr? && actual.Arr? && i <= |expected.items| && i <= |actual.items|
    requires expected.items[..i] == actual.items[..i]
    ensures FirstItem(sorted, expected, actual, i) == None <==> expected.items == actual.items
    ensures FirstItem(sorted, expected, actual, i).Some? ==>
              Shows(expected, actual, FirstItem(sorted, expected, actual, i).value)
    decreases expected, 0, |expected.items| - i
  {
    if i < |expected.items| && i < |actual.items| {
      DifferenceExact(sorted, expected.items[i], actual.items[i]);
      UnderShows(sorted, expected.items[i], actual.items[i], Index(i));
      if expected.items[i] == actual.items[i] {
        assert expected.items[..i + 1] == expected.items[..i] + [expected.items[i]];
        assert actual.items[..i + 1] == actual.items[..i] + [actual.items[i]];
        ItemsExact(sorted, expected, actual, i + 1);
      }
    } else {
      assert expected.items[..|expected.items|] == expected.items && actual.items[..|actual.items|] == actual.items;
    }
  }

  // ----- Normalising -----

  /** The references dictionary: every order row seen, by its canonical name. */
  ghost predicate HoldsReferences(references: map<string, string>, clients: map<string, string>, rows: set<Ident>) {
    && (forall s :: s in references <==> Parse(s).Some? && Parse(s).value in rows)
    && (forall x :: x in rows ==> x.client in clients && Spell(x) in references
                                  && references[Spell(x)] == Prefix(x.kind) + clients[x.client])
  }

  /** The dictionaries and sets of normalize_orders hold the table. */
  ghost predicate Holds(clients: map<string, string>, references: map<string, string>, seen: set<string>,
                        outcomes: set<string>, t: Table) {
    && Sound(t)
    && clients == Names(t.order) && |clients| == |t.order|
    && seen == references.Keys
    && HoldsReferences(references, clients, t.seen)
    && HoldsOutcomes(outcomes, t.seen)
  }

  ghost predicate HoldsOutcomes(outcomes: set<string>, rows: set<Ident>) {
    forall c :: c in outcomes <==> Ident(Released, c) in rows || Ident(Refused, c) in rows
  }

  lemma NamesExtended(order: seq<string>, c: string)
    requires Distinct(order) && c !in order
    ensures Distinct(order + [c]) && Names(order + [c]) == Names(order)[c := Name(|order|)]
  {
    var longer := order + [c];
    assert Distinct(longer);
    forall i | 0 <= i < |order| ensures longer[i] == order[i] {
    }
    assert longer[|order|] == c;
    var f, g := Names(longer), Names(order)[c := Name(|order|)];
    forall x | x in longer ensures f[x] == g[x] {
      var i := IndexOf(longer, x);
      if i < |order| {
        assert order[i] == x;
      }
    }
    assert f.Keys == g.Keys;
  }

  lemma ReferencesMore(references: map<string, string>, clients: map<string, string>, rows: set<Ident>, x: Ident,
                       clients': map<string, string>)
    requires HoldsReferences(references, clients, rows) && x.client in clients'
    requires forall c :: c in clients ==> c in clients' && clients'[c] == clients[c]
    ensures HoldsReferences(references[Spell(x) := Prefix(x.kind) + clients'[x.client]], clients', rows + {x})
  {
    ParseSpell(x);
    var references' := references[Spell(x) := Prefix(x.kind) + clients'[x.client]];
    forall s ensures s in references' <==> Parse(s).Some? && Parse(s).value in rows + {x} {
      if Parse(s).Some? && Parse(s).value == x {
        assert s == Spell(x);
      }
    }
    forall y | y in rows ensures Spell(y) in references'
        && references'[Spell(y)] == Prefix(y.kind) + clients'[y.client] {
      ParseSpell(y);
    }
  }

  lemma HoldsMore(clients: map<string, string>, references: map<string, string>, seen: set<string>,
                  outcomes: set<string>, t: Table, x: Ident, clients': map<string, string>, t': Table)
    requires HoldsReferences(references, clients, t.seen) && HoldsOutcomes(outcomes, t.seen) && seen == references.Keys
    requires Sound(t') && t'.seen == t.seen + {x} && x.client in clients'
    requires clients' == Names(t'.order) && |clients'| == |t'.order|
    requires forall c :: c in clients ==> c in clients' && clients'[c] == clients[c]
    ensures Holds(clients', references[Spell(x) := Prefix(x.kind) + clients'[x.client]], seen + {Spell(x)},
                  if x.kind == Planned then outcomes else outcomes + {x.client}, t')
  {
    ReferencesMore(references, clients, t.seen, x, clients');
    OutcomesMore(t.seen, outcomes, x);
    var references' := references[Spell(x) := Prefix(x.kind) + clients'[x.client]];
    assert references'.Keys == seen + {Spell(x)};
  }

  lemma SpelledSeen(references: map<string, string>, clients: map<string, string>, rows: set<Ident>)
    requires HoldsReferences(references, clients, rows)
    ensures forall x :: Spell(x) in references.Keys <==> x in rows
  {
    forall x ensures Spell(x) in references.Keys <==> x in rows { ParseSpell(x); }
  }

  lemma OutcomesMore(rows: set<Ident>, outcomes: set<string>, x: Ident)
    requires HoldsOutcomes(outcomes, rows)
    ensures HoldsOutcomes(if x.kind == Planned then outcomes else outcomes + {x.client}, rows + {x})
  {
  }

  /** The first loop: the dictionaries of every order row, or a refusal. */
  method Gather(selected: seq<Row>) returns (ok: bool, clients: map<string, string>, references: map<string, string>)
    ensures ok <==> Scan(NoOrders, selected).Some?
    ensures ok ==> exists seen, outcomes :: Holds(clients, references, seen, outcomes, Scan(NoOrders, selected).value)
  {
    clients, references := map[], map[];
    var seen: set<string>, outcomes: set<string> := {}, {};
    ghost var t := NoOrders;
    var i := 0;
    while i < |selected|
      invariant 0 <= i <= |selected|
      invariant Holds(clients, references, seen, outcomes, t)
      invariant Scan(t, selected[i..]) == Scan(NoOrders, selected)
    {
      assert selected[i..][0] == selected[i] && selected[i..][1..] == selected[i + 1..];
      ok, clients, references, seen, outcomes := GatherRow(selected[i], clients, references, seen, outcomes, t);
      if !ok {
        return;
      }
      t := Visit(t, selected[i]).value;
      i := i + 1;
    }
    ok := true;
  }

  /** The first loop's body. */
  method GatherRow(row: Row, clients: map<string, string>, references: map<string, string>, seen: set<string>,
                   outcomes: set<string>, ghost t: Table)
    returns (ok: bool, clients': map<string, string>, references': map<string, string>, seen': set<string>,
        outcomes': set<string>)
    requires Holds(clients, references, seen, outcomes, t)
    ensures ok <==> Visit(t, row).Some?
    ensures ok ==> Holds(clients', references', seen', outcomes', Visit(t, row).value)
  {
    ok, clients', references', seen', outcomes' := false, clients, references, seen, outcomes;
    if "type" !in row || row["type"].Arr? || row["type"].Obj? {
      return;
    }
    var kind := KindOf(row);
    if kind.None? {
      ok := true;
      return;
    }
    SpelledSeen(references, clients, t.seen);
    var client := Identify(row, kind.value, seen, t);
    if client == "" {
      return;
    }
    ok, clients', references', seen', outcomes' :=
      GatherOrder(row, kind.value, client, clients, references, seen, outcomes, t);
  }

  /** The row is an order's, and its payload and ID name the client. */
  ghost predicate Identified(t: Table, row: Row, kind: Kind, client: string) {
    && client != "" && "type" in row && !row["type"].Arr? && !row["type"].Obj? && KindOf(row) == Some(kind)
    && "payload" in row && row["payload"].Obj?
    && Field(row["payload"].fields, "client_order_id") == Some(Text(client))
    && Field(row, "id") == Some(Text(Spell(Ident(kind, client)))) && Ident(kind, client) !in t.seen
  }

  ghost predicate Classified(t: Table, payload: map<string, Json>, kind: Kind, client: string) {
    if kind == Planned then client !in t.order
    else && client in t.order && Field(payload, "plan_id") == Some(Text(Spell(Ident(Planned, client))))
         && Ident(Released, client) !in t.seen && Ident(Refused, client) !in t.seen
  }

  lemma VisitIdentified(t: Table, row: Row, kind: Kind, client: string)
    requires Identified(t, row, kind, client) && Sound(t)
    ensures Visit(t, row).Some? <==> Classified(t, row["payload"].fields, kind, client)
    ensures Visit(t, row).Some? ==>
              var t' := Visit(t, row).value;
              && Sound(t') && t'.seen == t.seen + {Ident(kind, client)}
              && t'.order == if kind == Planned then t.order + [client] else t.order
  {
    if Visit(t, row).Some? { VisitSound(t, row); }
  }

  method GatherOrder(row: Row, kind: Kind, client: string, clients: map<string, string>,
                     references: map<string, string>, seen: set<string>, outcomes: set<string>, ghost t: Table)
    returns (ok: bool, clients': map<string, string>, references': map<string, string>, seen': set<string>,
        outcomes': set<string>)
    requires Holds(clients, references, seen, outcomes, t) && Identified(t, row, kind, client)
    ensures ok <==> Visit(t, row).Some?
    ensures ok ==> Holds(clients', references', seen', outcomes', Visit(t, row).value)
  {
    VisitIdentified(t, row, kind, client);
    references', seen' := references, seen;
    ok, clients', outcomes' := Classify(row["payload"].fields, kind, client, clients, outcomes, t);
    if !ok {
      return;
    }
    var ident := Prefix(kind) + client;
    seen' := seen + {ident};
    references' := references[ident := Prefix(kind) + clients'[client]];
    HoldsMore(clients, references, seen, outcomes, t, Ident(kind, client), clients', Visit(t, row).value);
  }

  /** The client an order row names in its payload and its ID; empty where the row is refused for either. */
  method Identify(row: Row, kind: Kind, seen: set<string>, ghost t: Table) returns (client: string)
    requires forall x :: Spell(x) in seen <==> x in t.seen
    requires "type" in row && !row["type"].Arr? && !row["type"].Obj? && KindOf(row) == Some(kind)
    ensures client != "" ==> Identified(t, row, kind, client)
    ensures client == "" ==> Visit(t, row).None?
  {
    if "payload" !in row || !row["payload"].Obj? {
      return "";
    }
    var payload := row["payload"].fields;
    if "client_order_id" !in payload || !payload["client_order_id"].Text? || payload["client_order_id"].text == "" {
      return "";
    }
    client := payload["client_order_id"].text;
    var ident := Prefix(kind) + client;
    assert ident == Spell(Ident(kind, client));
    if "id" !in row || row["id"] != Text(ident) || ident in seen {
      return "";
    }
  }

  /** A plan takes the next canonical name; an outcome must be the first of an order planned before it. */
  method Classify(payload: map<string, Json>, kind: Kind, client: string, clients: map<string, string>,
                  outcomes: set<string>, ghost t: Table)
    returns (ok: bool, clients': map<string, string>, outcomes': set<string>)
    requires Sound(t) && clients == Names(t.order) && |clients| == |t.order|
    requires HoldsOutcomes(outcomes, t.seen)
    ensures ok <==> Classified(t, payload, kind, client)
    ensures ok && kind == Planned ==>
              clients' == Names(t.order + [client]) && |clients'| == |clients| + 1 && outcomes' == outcomes
    ensures ok && kind != Planned ==> clients' == clients && outcomes' == outcomes + {client}
    ensures ok ==> client in clients' && forall c :: c in clients ==> c in clients' && clients'[c] == clients[c]
  {
    clients', outcomes', ok := clients, outcomes, false;
    if kind == Planned {
      if client in clients {
        return;
      }
      NamesExtended(t.order, client);
      clients' := clients[client := Name(|clients|)];
    } else if client !in clients || "plan_id" !in payload || payload["plan_id"] != Text("order-planned:" + client) {
      return;
    } else if client in outcomes {
      return;
    } else {
      outcomes' := outcomes + {client};
    }
    ok := true;
  }

  /** reference: a cited ID by its canonical name, None where it is unresolved. */
  function Reference(references: map<string, string>, v: Json): Option<Json> {
    if !v.Text? then None
    else if v.text in references then Some(Text(references[v.text]))
    else if StartsWith(v.text, Prefix(Planned)) || StartsWith(v.text, Prefix(Released))
        || StartsWith(v.text, Prefix(Refused)) then None
    else Some(v)
  }

  lemma ReferenceResolves(clients: map<string, string>, references: map<string, string>, t: Table, v: Json)
    requires clients == Names(t.order) && HoldsReferences(references, clients, t.seen)
    ensures Reference(references, v) == if Resolves(t, v) then Some(RenameRef(Names(t.order), v)) else None
  {
    if v.Text? && Parse(v.text).Some? {
      assert v.text == Spell(Parse(v.text).value);
    }
  }

  /** The payload's part of the second loop's body. */
  method NormalizePayload(row: Row, clients: map<string, string>, references: map<string, string>, ghost t: Table)
    returns (ok: bool, payload: map<string, Json>)
    requires "payload" in row && row["payload"].Obj? && Named(t.order, row)
    requires clients == Names(t.order) && HoldsReferences(references, clients, t.seen)
    ensures ok <==> (KindOf(row).Some? && "plan_id" in row["payload"].fields ==>
            Resolves(t, row["payload"].fields["plan_id"]))
    ensures ok ==> RenameField(clients, KindOf(row).Some?, "payload", row["payload"]) == Obj(payload)
  {
    ok, payload := true, row["payload"].fields;
    if KindOf(row).Some? {
      payload := payload["client_order_id" := Text(clients[payload["client_order_id"].text])];
      if "plan_id" in payload {
        ReferenceResolves(clients, references, t, payload["plan_id"]);
        var cited := Reference(references, payload["plan_id"]);
        if cited.None? {
          return false, payload;
        }
        payload := payload["plan_id" := cited.value];
      }
    }
    PayloadRenamed(clients, row, payload);
  }

  /** The second loop's body: the row without the four fields, its orders by their canonical names. */
  method NormalizeRow(row: Row, clients: map<string, string>, references: map<string, string>, ghost t: Table)
    returns (ok: bool, envelope: Row)
    requires clients == Names(t.order) && HoldsReferences(references, clients, t.seen) && Named(t.order, row)
    ensures ok <==> RowResolves(t, row)
    ensures ok ==> envelope == RenameRow(clients, row)
  {
    if "payload" !in row || !row["payload"].Obj? {
      return false, row;
    }
    var payload;
    ok, payload := NormalizePayload(row, clients, references, t);
    if !ok {
      return false, row;
    }
    ok, envelope := Cite(row, clients, references, t);
    ghost var cited := envelope;
    envelope := envelope["payload" := Obj(payload)];
    if ok { EnvelopeRenamed(clients, row, cited, payload); }
  }

  lemma EnvelopeRenamed(f: map<string, string>, row: Row, cited: Row, payload: map<string, Json>)
    requires "payload" in row && RenameField(f, KindOf(row).Some?, "payload", row["payload"]) == Obj(payload)
    requires cited.Keys == Undropped(row).Keys
    requires forall k :: k in cited ==> cited[k] == if k in CitingKeys then RenameRef(f, row[k]) else row[k]
    ensures cited["payload" := Obj(payload)] == RenameRow(f, row)
  {
    var envelope, renamed := cited["payload" := Obj(payload)], RenameRow(f, row);
    assert "payload" !in DroppedKeys;
    assert envelope.Keys == renamed.Keys;
    assert forall k :: k in envelope ==> envelope[k] == renamed[k];
  }

  lemma PayloadRenamed(f: map<string, string>, row: Row, payload: map<string, Json>)
    requires "payload" in row && row["payload"].Obj?
    requires payload.Keys == row["payload"].fields.Keys
    requires forall k :: k in payload ==>
               payload[k] == if KindOf(row).Some? then RenamePayloadField(f, k, row["payload"].fields[k])
                   else row["payload"].fields[k]
    ensures RenameField(f, KindOf(row).Some?, "payload", row["payload"]) == Obj(payload)
  {
    if KindOf(row).Some? {
      assert payload == map p | p in row["payload"].fields :: RenamePayloadField(f, p, row["payload"].fields[p]);
    } else {
      assert payload == row["payload"].fields;
    }
  }

  /** The three fields that cite an order, each by its canonical name. */
  method Cite(row: Row, clients: map<string, string>, references: map<string, string>, ghost t: Table)
    returns (ok: bool, envelope: Row)
    requires clients == Names(t.order) && HoldsReferences(references, clients, t.seen)
    ensures ok <==> forall k :: k in CitingKeys && k in row ==> Resolves(t, row[k])
    ensures ok ==> envelope.Keys == Undropped(row).Keys
    ensures ok ==> forall k :: k in envelope ==>
                     envelope[k] == if k in CitingKeys then RenameRef(clients, row[k]) else row[k]
  {
    envelope := Undropped(row);
    var keys := ["id", "causation_id", "correlation_id"];
    assert forall k :: k in CitingKeys <==> k in keys;
    var i := 0;
    while i < |keys|
      invariant 0 <= i <= |keys| && envelope.Keys == Undropped(row).Keys
      invariant forall k :: k in keys[..i] && k in row ==> Resolves(t, row[k])
      invariant forall k :: k in envelope ==>
                envelope[k] == if k in keys[..i] then RenameRef(clients, row[k]) else row[k]
    {
      var k := keys[i];
      assert k !in DroppedKeys && k !in keys[..i];
      assert forall x :: x in keys[..i + 1] <==> x == k || x in keys[..i];
      if k in envelope {
        ReferenceResolves(clients, references, t, row[k]);
        var cited := Reference(references, envelope[k]);
        if cited.None? {
          return false, envelope;
        }
        envelope := envelope[k := cited.value];
      }
      i := i + 1;
    }
    assert keys[..i] == keys;
    ok := true;
  }

  /** The second loop. */
  method NormalizeRows(selected: seq<Row>, clients: map<string, string>, references: map<string, string>,
                       ghost t: Table)
    returns (ok: bool, normalized: seq<Row>)
    requires clients == Names(t.order) && HoldsReferences(references, clients, t.seen)
    requires forall i :: 0 <= i < |selected| ==> Named(t.order, selected[i])
    ensures ok <==> forall i :: 0 <= i < |selected| ==> RowResolves(t, selected[i])
    ensures ok ==> |normalized| == |selected| && forall i :: 0 <= i < |selected| ==>
            normalized[i] == RenameRow(clients, selected[i])
  {
    normalized := [];
    var i := 0;
    while i < |selected|
      invariant 0 <= i <= |selected| && |normalized| == i
      invariant forall j :: 0 <= j < i ==>
                RowResolves(t, selected[j]) && normalized[j] == RenameRow(clients, selected[j])
    {
      var envelope;
      ok, envelope := NormalizeRow(selected[i], clients, references, t);
      if !ok {
        return;
      }
      normalized := normalized + [envelope];
      i := i + 1;
    }
    ok := true;
  }

  /** normalize_orders: refuses what Normalize refuses, and otherwise gives its rows. */
  method NormalizeOrders(selected: seq<Row>) returns (r: Option<seq<Row>>)
    ensures r == Normalize(selected)
  {
    var ok, clients, references := Gather(selected);
    if !ok {
      return None;
    }
    ScanSound(NoOrders, selected);
    var normalized;
    ok, normalized := NormalizeRows(selected, clients, references, Scan(NoOrders, selected).value);
    if !ok {
      return None;
    }
    assert normalized == Normalize(selected).value;
    r := Some(normalized);
  }

  function Listed(rows: seq<Row>): Json {
    Arr(seq(|rows|, i requires 0 <= i < |rows| => Obj(rows[i])))
  }

  /** The month's comparison of two selected lists: refused, different at a place, or the same. */
  datatype Comparison = Malformed | Differs(at: Difference) | Same

  /** compare_month on the two selections: for a recorded list that is well formed, the replay passes exactly
      when it is the recorded list with its orders renamed one to one, the four fields aside. */
  method CompareMonth(sorted: set<string> -> seq<string>, recorded: seq<Row>, replayed: seq<Row>)
    returns (c: Comparison)
    requires Lists(sorted)
    ensures Normalize(recorded).None? ==> c == Malformed
    ensures Normalize(recorded).Some? ==>
              (c == Same <==>
                 exists f ::
                   && Renaming(f)
                   && f.Keys == (set o | o in Scan(NoOrders, recorded).value.order)
                   && Renames(f, recorded, replayed))
    ensures c.Differs? ==> Normalize(recorded).Some? && Normalize(replayed).Some?
                           && Shows(Listed(Normalize(recorded).value), Listed(Normalize(replayed).value), c.at)
  {
    var original := NormalizeOrders(recorded);
    if original.None? {
      return Malformed;
    }
    RenamingEquivalence(recorded, replayed);
    var again := NormalizeOrders(replayed);
    if again.None? {
      return Malformed;
    }
    var difference := FirstDifference(sorted, Listed(original.value), Listed(again.value));
    DifferenceExact(sorted, Listed(original.value), Listed(again.value));
    ListedInjective(original.value, again.value);
    return if difference.Some? then Differs(difference.value) else Same;
  }

  lemma ListedInjective(a: seq<Row>, b: seq<Row>)
    ensures Listed(a) == Listed(b) <==> a == b
  {
    if Listed(a) == Listed(b) {
      assert |Listed(a).items| == |a| && |Listed(b).items| == |b|;
      forall i | 0 <= i < |a| ensures a[i] == b[i] {
        assert Listed(a).items[i] == Obj(a[i]) && Listed(b).items[i] == Obj(b[i]);
      }
    }
  }
}
