/** Normalised lists are equal exactly when the lists are one another's renaming, and the comparison of a
    month decides it (deploy/ira-replay.py). */
module ReplayTheorems {
  import opened Wrappers
  import opened Replay

  // ----- What the first loop keeps -----

  predicate Sound(t: Table) {
    && Distinct(t.order)
    && (forall i :: 0 <= i < |t.order| ==> t.order[i] != "")
    && (forall x :: x in t.seen ==> x.client in t.order)
  }

  lemma VisitSound(t: Table, row: Row)
    requires Sound(t) && Visit(t, row).Some?
    ensures Sound(Visit(t, row).value) && t.order <= Visit(t, row).value.order && t.seen <= Visit(t, row).value.seen
    ensures |Visit(t, row).value.order| == |t.order| + if KindOf(row) == Some(Planned) then 1 else 0
    ensures KindOf(row).Some? ==>
              && "payload" in row && row["payload"].Obj? && "client_order_id" in row["payload"].fields
              && row["payload"].fields["client_order_id"].Text?
              && row["payload"].fields["client_order_id"].text in Visit(t, row).value.order
  {
  }

  function Plans(rows: seq<Row>): nat {
    if rows == [] then 0 else (if KindOf(rows[0]) == Some(Planned) then 1 else 0) + Plans(rows[1..])
  }

  predicate Named(order: seq<string>, row: Row) {
    KindOf(row).Some? ==>
      && "payload" in row && row["payload"].Obj? && "client_order_id" in row["payload"].fields
      && row["payload"].fields["client_order_id"].Text?
      && row["payload"].fields["client_order_id"].text in order
  }

  lemma {:induction false} ScanSound(t: Table, rows: seq<Row>)
    requires Sound(t) && Scan(t, rows).Some?
    ensures Sound(Scan(t, rows).value) && t.order <= Scan(t, rows).value.order
    ensures |Scan(t, rows).value.order| == |t.order| + Plans(rows)
    ensures forall i :: 0 <= i < |rows| ==> Named(Scan(t, rows).value.order, rows[i])
    decreases |rows|
  {
    if rows != [] {
      VisitSound(t, rows[0]);
      ScanSound(Visit(t, rows[0]).value, rows[1..]);
      var order := Scan(t, rows).value.order;
      assert Named(order, rows[0]);
      forall i | 0 < i < |rows| ensures Named(order, rows[i]) {
        assert rows[i] == rows[1..][i - 1];
      }
    }
  }

  /** A row that passed both loops cites only orders the table's names rename. */
  lemma PassedIn(t: Table, f: map<string, string>, row: Row)
    requires Sound(t) && Named(t.order, row) && RowResolves(t, row)
    requires f.Keys == set c | c in t.order
    ensures RowIn(f, row)
  {
  }

  // ----- Renaming a table -----

  function RenameOrder(f: map<string, string>, order: seq<string>): (r: seq<string>)
    requires forall i :: 0 <= i < |order| ==> order[i] in f
  {
    seq(|order|, i requires 0 <= i < |order| => f[order[i]])
  }

  predicate Within(f: map<string, string>, t: Table) {
    && (forall i :: 0 <= i < |t.order| ==> t.order[i] in f)
    && (forall x :: x in t.seen ==> x.client in f)
  }

  function RenameTable(f: map<string, string>, t: Table): Table
    requires Within(f, t)
  {
    Table(RenameOrder(f, t.order), set x | x in t.seen :: Ident(x.kind, f[x.client]))
  }

  predicate Renaming(f: map<string, string>) {
    Injective(f) && forall c :: c in f ==> f[c] != ""
  }

  /** f renames the rows of a to the rows of b, but for the fields a replay may change. */
  predicate Renames(f: map<string, string>, a: seq<Row>, b: seq<Row>) {
    |a| == |b| && forall i :: 0 <= i < |a| ==> RenameRow(f, a[i]) == Undropped(b[i])
  }

  lemma SeenRenamed(f: map<string, string>, t: Table, x: Ident)
    requires Within(f, t) && Injective(f) && x.client in f
    ensures Ident(x.kind, f[x.client]) in RenameTable(f, t).seen <==> x in t.seen
    ensures f[x.client] in RenameTable(f, t).order <==> x.client in t.order
  {
    var r := RenameTable(f, t);
    if x.client in t.order {
      var i := IndexOf(t.order, x.client);
      assert r.order[i] == f[x.client];
    }
  }

  /** The fields of a renamed row that the first loop looks at. */
  lemma FieldsRenamed(f: map<string, string>, row: Row, row': Row)
    requires RenameRow(f, row) == Undropped(row')
    ensures KindOf(row') == KindOf(row)
    ensures forall k :: k !in DroppedKeys ==> (k in row' <==> k in row)
    ensures forall k :: k !in DroppedKeys && k in row ==> row'[k] == RenameField(f, KindOf(row).Some?, k, row[k])
  {
    KindKept(f, row);
    KindKept(f, row');
    var u := Undropped(row');
    forall k | k !in DroppedKeys ensures (k in row' <==> k in u) && (k in row <==> k in RenameRow(f, row)) {
    }
  }

  lemma VisitOther(f: map<string, string>, t: Table, row: Row, row': Row)
    requires Visit(t, row).Some? && KindOf(row).None? && RenameRow(f, row) == Undropped(row')
    requires Within(f, t)
    ensures Visit(RenameTable(f, t), row') == Some(RenameTable(f, t))
  {
    FieldsRenamed(f, row, row');
    assert "type" !in DroppedKeys;
  }

  /** What the first loop reads of an order row: its kind, its client, its ID and its plan. */
  lemma OrderRenamed(f: map<string, string>, t: Table, row: Row, row': Row)
    requires Visit(t, row).Some? && KindOf(row).Some? && RenameRow(f, row) == Undropped(row')
    requires Within(f, Visit(t, row).value) && Sound(t)
    ensures VisitReads(row) && VisitReads(row') && ClientOf(row) in f
    ensures ClientOf(row') == f[ClientOf(row)] && KindOf(row') == KindOf(row)
    ensures Field(row', "id") == Some(Text(Spell(Ident(KindOf(row).value, ClientOf(row')))))
    ensures KindOf(row) != Some(Planned) ==>
              Field(row'["payload"].fields, "plan_id") == Some(Text(Spell(Ident(Planned, ClientOf(row')))))
  {
    FieldsRenamed(f, row, row');
    var client := ClientOf(row);
    var payload, payload' := row["payload"].fields, row'["payload"].fields;
    assert client in f by { VisitSound(t, row); }
    assert payload'["client_order_id"] == RenamePayloadField(f, "client_order_id", payload["client_order_id"]);
    ParseSpell(Ident(KindOf(row).value, client));
    ParseSpell(Ident(Planned, client));
    if KindOf(row) != Some(Planned) {
      assert payload'["plan_id"] == RenamePayloadField(f, "plan_id", payload["plan_id"]);
    }
  }

  predicate VisitReads(row: Row) {
    && "type" in row && !row["type"].Arr? && !row["type"].Obj?
    && "payload" in row && row["payload"].Obj? && "client_order_id" in row["payload"].fields
    && row["payload"].fields["client_order_id"].Text?
  }

  function ClientOf(row: Row): string {
    if VisitReads(row) then row["payload"].fields["client_order_id"].text else ""
  }

  lemma VisitOrder(f: map<string, string>, t: Table, row: Row, row': Row)
    requires Visit(t, row).Some? && KindOf(row).Some? && RenameRow(f, row) == Undropped(row')
    requires Within(f, Visit(t, row).value) && Within(f, t) && Sound(t) && Renaming(f)
    ensures Visit(RenameTable(f, t), row') == Some(RenameTable(f, Visit(t, row).value))
  {
    OrderRenamed(f, t, row, row');
    var kind, client := KindOf(row).value, ClientOf(row);
    var t' := Visit(t, row).value;
    SeenRenamed(f, t, Ident(kind, client));
    SeenRenamed(f, t, Ident(Released, client));
    SeenRenamed(f, t, Ident(Refused, client));
    assert RenameTable(f, t').seen == RenameTable(f, t).seen + {Ident(kind, f[client])} by {
      assert t'.seen == t.seen + {Ident(kind, client)};
    }
    if kind == Planned {
      assert RenameOrder(f, t'.order) == RenameOrder(f, t.order) + [f[client]];
    }
  }

  lemma {:induction false} ScanRenamed(f: map<string, string>, t: Table, a: seq<Row>, b: seq<Row>)
    requires Sound(t) && Within(f, t) && Renaming(f) && Renames(f, a, b)
    requires Scan(t, a).Some? && forall c :: c in Scan(t, a).value.order ==> c in f
    ensures Within(f, Scan(t, a).value)
    ensures Scan(RenameTable(f, t), b) == Some(RenameTable(f, Scan(t, a).value))
    decreases |a|
  {
    if a != [] {
      var t' := Visit(t, a[0]).value;
      VisitSound(t, a[0]);
      ScanSound(t', a[1..]);
      assert Within(f, t') by {
        forall i | 0 <= i < |t'.order| ensures t'.order[i] in f {
          assert t'.order[i] == Scan(t, a).value.order[i];
        }
      }
      assert RenameRow(f, a[0]) == Undropped(b[0]);
      if KindOf(a[0]).None? {
        VisitOther(f, t, a[0], b[0]);
      } else {
        VisitOrder(f, t, a[0], b[0]);
      }
      assert Renames(f, a[1..], b[1..]) by {
        forall i | 0 <= i < |a| - 1 ensures RenameRow(f, a[1..][i]) == Undropped(b[1..][i]) {
          assert a[1..][i] == a[i + 1] && b[1..][i] == b[i + 1];
        }
      }
      ScanRenamed(f, t', a[1..], b[1..]);
    }
  }

  lemma ResolvesRenamed(f: map<string, string>, t: Table, v: Json)
    requires Within(f, t) && Injective(f) && Resolves(t, v)
    ensures Resolves(RenameTable(f, t), RenameRef(f, v))
  {
    if Parse(v.text).Some? {
      var x := Parse(v.text).value;
      SeenRenamed(f, t, x);
      ParseSpell(Ident(x.kind, f[x.client]));
    }
  }

  lemma RowResolvesRenamed(f: map<string, string>, t: Table, row: Row, row': Row)
    requires Within(f, t) && Injective(f) && RowResolves(t, row) && RenameRow(f, row) == Undropped(row')
    ensures RowResolves(RenameTable(f, t), row')
  {
    FieldsRenamed(f, row, row');
    forall k | k in CitingKeys && k in row' ensures Resolves(RenameTable(f, t), row'[k]) {
      ResolvesRenamed(f, t, row[k]);
    }
    if KindOf(row').Some? && "plan_id" in row'["payload"].fields {
      var payload, payload' := row["payload"].fields, row'["payload"].fields;
      assert payload'["plan_id"] == RenamePayloadField(f, "plan_id", payload["plan_id"]);
      ResolvesRenamed(f, t, payload["plan_id"]);
    }
  }

  // ----- The equivalence -----

  predicate Covers(f: map<string, string>, order: seq<string>) {
    (forall i :: 0 <= i < |order| ==> order[i] in f) && forall c :: c in f ==> c in order
  }

  lemma NamesCover(f: map<string, string>, order: seq<string>, c: string)
    requires Distinct(order) && Injective(f) && Covers(f, order) && c in f
    ensures f[c] in Names(RenameOrder(f, order)) && Names(RenameOrder(f, order))[f[c]] == Names(order)[c]
  {
    RenamedDistinct(f, order);
    SameName(f, order, RenameOrder(f, order), c);
  }

  /** The names of the renamed orders, after the renaming, are the names. */
  lemma NamesAfter(f: map<string, string>, order: seq<string>)
    requires Distinct(order) && Injective(f) && Covers(f, order)
    ensures forall c :: c in f ==> f[c] in Names(RenameOrder(f, order))
    ensures Compose(Names(RenameOrder(f, order)), f) == Names(order)
  {
    var g, h := Names(RenameOrder(f, order)), Names(order);
    forall c | c in f ensures f[c] in g && g[f[c]] == h[c] {
      NamesCover(f, order, c);
    }
    assert forall c :: c in h <==> c in order;
    assert Compose(g, f) == h;
  }

  lemma InOrderIn(f: map<string, string>, order: seq<string>)
    requires f.Keys == set c | c in order
    ensures Covers(f, order)
  {
    assert forall c :: c in f <==> c in f.Keys;
  }

  lemma RenamedDistinct(f: map<string, string>, order: seq<string>)
    requires Distinct(order) && Injective(f) && forall i :: 0 <= i < |order| ==> order[i] in f
    ensures Distinct(RenameOrder(f, order))
    ensures forall i :: 0 <= i < |order| ==> RenameOrder(f, order)[i] == f[order[i]]
  {
  }

  lemma SameName(f: map<string, string>, order: seq<string>, order': seq<string>, c: string)
    requires Distinct(order) && Distinct(order') && |order| == |order'| && c in order && c in f
    requires forall i :: 0 <= i < |order| ==> order[i] in f && order'[i] == f[order[i]]
    ensures f[c] in Names(order') && Names(order')[f[c]] == Names(order)[c]
  {
    var i := IndexOf(order, c);
    assert order'[i] == f[c];
  }

  lemma NormalizedAlike(a: seq<Row>, b: seq<Row>, ta: Table, tb: Table)
    requires |a| == |b| && Scan(NoOrders, a) == Some(ta) && Scan(NoOrders, b) == Some(tb)
    requires forall i :: 0 <= i < |a| ==> RowResolves(ta, a[i])
    requires forall i :: 0 <= i < |b| ==> RowResolves(tb, b[i])
    requires forall i :: 0 <= i < |b| ==> RenameRow(Names(tb.order), b[i]) == RenameRow(Names(ta.order), a[i])
    ensures Normalize(b) == Normalize(a)
  {
    assert Normalize(b).value == Normalize(a).value;
  }

  /** A renamed list is accepted where its original is, and normalises to the same rows. */
  lemma RenamedNormalizesAlike(f: map<string, string>, a: seq<Row>, b: seq<Row>)
    requires Normalize(a).Some? && Renaming(f) && Renames(f, a, b)
    requires f.Keys == set c | c in Scan(NoOrders, a).value.order
    ensures Normalize(b) == Normalize(a)
  {
    var t := Scan(NoOrders, a).value;
    ScanSound(NoOrders, a);
    ScanRenamed(f, NoOrders, a, b);
    assert RenameTable(f, NoOrders) == NoOrders;
    forall i | 0 <= i < |b|
      ensures RowResolves(RenameTable(f, t), b[i])
      ensures RenameRow(Names(RenameTable(f, t).order), b[i]) == RenameRow(Names(t.order), a[i])
    {
      RowAlike(f, t, a[i], b[i]);
    }
    NormalizedAlike(a, b, t, RenameTable(f, t));
  }

  lemma RowAlike(f: map<string, string>, t: Table, row: Row, row': Row)
    requires Sound(t) && Within(f, t) && Injective(f) && f.Keys == set c | c in t.order
    requires RowResolves(t, row) && Named(t.order, row) && RenameRow(f, row) == Undropped(row')
    ensures RowResolves(RenameTable(f, t), row')
    ensures RenameRow(Names(RenameOrder(f, t.order)), row') == RenameRow(Names(t.order), row)
  {
    var g := Names(RenameOrder(f, t.order));
    RowResolvesRenamed(f, t, row, row');
    InOrderIn(f, t.order);
    NamesAfter(f, t.order);
    PassedIn(t, f, row);
    RowComposes(g, f, row);
    RenameUndropped(g, row');
  }

  lemma {:induction false} PlansFromKinds(a: seq<Row>, b: seq<Row>)
    requires |a| == |b| && forall i :: 0 <= i < |a| ==> KindOf(a[i]) == KindOf(b[i])
    ensures Plans(a) == Plans(b)
    decreases |a|
  {
    if a != [] { PlansFromKinds(a[1..], b[1..]); }
  }

  /** The renaming between two lists of orders: each to the one at its place. */
  function Between(a: seq<string>, b: seq<string>): (f: map<string, string>)
    requires |a| == |b|
    ensures f.Keys == set c | c in a
    ensures Distinct(a) ==> forall i :: 0 <= i < |a| ==> f[a[i]] == b[i]
  {
    map c | c in a :: b[IndexOf(a, c)]
  }

  lemma BetweenRenames(a: seq<string>, b: seq<string>)
    requires |a| == |b| && Distinct(a) && Distinct(b) && forall i :: 0 <= i < |b| ==> b[i] != ""
    ensures Renaming(Between(a, b)) && RenameOrder(Between(a, b), a) == b
  {
    var f := Between(a, b);
    forall x, y | x in f && y in f && f[x] == f[y] ensures x == y {
      var i, j := IndexOf(a, x), IndexOf(a, y);
      assert b[i] == b[j];
    }
  }

  lemma SameKinds(a: seq<Row>, b: seq<Row>)
    requires Normalize(a).Some? && Normalize(b) == Normalize(a)
    ensures |a| == |b| && forall i :: 0 <= i < |a| ==> KindOf(a[i]) == KindOf(b[i])
  {
    var f, g := Names(Scan(NoOrders, a).value.order), Names(Scan(NoOrders, b).value.order);
    assert |Normalize(a).value| == |a| && |Normalize(b).value| == |b|;
    forall i | 0 <= i < |a| ensures KindOf(a[i]) == KindOf(b[i]) {
      assert Normalize(a).value[i] == RenameRow(f, a[i]) && Normalize(b).value[i] == RenameRow(g, b[i]);
      KindKept(f, a[i]);
      KindKept(g, b[i]);
    }
  }

  /** Lists that normalise alike are one another's renaming, place by place. */
  lemma AlikeIsRenamed(a: seq<Row>, b: seq<Row>)
    requires Normalize(a).Some? && Normalize(b) == Normalize(a)
    ensures exists f :: Renaming(f) && f.Keys == (set c | c in Scan(NoOrders, a).value.order) && Renames(f, a, b)
  {
    var ta, tb := Scan(NoOrders, a).value, Scan(NoOrders, b).value;
    ScanSound(NoOrders, a);
    ScanSound(NoOrders, b);
    SameKinds(a, b);
    PlansFromKinds(a, b);
    var f, g := Between(ta.order, tb.order), Names(tb.order);
    BetweenRenames(ta.order, tb.order);
    InOrderIn(f, ta.order);
    NamesAfter(f, ta.order);
    NamesInjective(tb.order);
    forall i | 0 <= i < |a| ensures RenameRow(f, a[i]) == Undropped(b[i]) {
      assert RowResolves(ta, a[i]) && RowResolves(tb, b[i]);
      PassedIn(ta, f, a[i]);
      PassedIn(tb, g, b[i]);
      RowComposes(g, f, a[i]);
      RowInAfter(g, f, a[i]);
      assert Normalize(a).value[i] == Normalize(b).value[i];
      RowInjective(g, RenameRow(f, a[i]), b[i]);
      RenameUndropped(f, a[i]);
    }
    assert Renames(f, a, b);
  }

  /** For every list the normaliser accepts and any other list: the other is accepted with the same normal form
      exactly when it is the first under a one-to-one renaming of its orders, the dropped fields aside. */
  lemma RenamingEquivalence(a: seq<Row>, b: seq<Row>)
    requires Normalize(a).Some?
    ensures Normalize(b) == Normalize(a) <==>
            exists f :: Renaming(f) && f.Keys == (set c | c in Scan(NoOrders, a).value.order) && Renames(f, a, b)
  {
    if Normalize(b) == Normalize(a) {
      AlikeIsRenamed(a, b);
    }
    if exists f :: Renaming(f) && f.Keys == (set c | c in Scan(NoOrders, a).value.order) && Renames(f, a, b) {
      var f :| Renaming(f) && f.Keys == (set c | c in Scan(NoOrders, a).value.order) && Renames(f, a, b);
      RenamedNormalizesAlike(f, a, b);
    }
  }
}
