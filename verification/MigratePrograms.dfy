/** The two migrations of migrate.py as programs. The plain column lists are parameters: any list of nullable typed
    columns will do, as long as it does not come before the CREATE TABLE of its table. */
module MigratePrograms {
  import opened Migrate
  import opened MigrateRuns
  import Rebuild
  import opened Schema
  import opened Wrappers

  // ---------------------------------------------------------------- the template catalog

  const TEMPLATES := "cloud_templates"

  function TextColumn(name: string, ctype: string, dflt: Option<Cell>): Column { Column(name, ctype, false, dflt, 0) }

  function CatalogColumns(): seq<Op> {
    [AddColumn(TEMPLATES, TextColumn("industry_code", "VARCHAR(64)", Some(Text("general")))),
     AddColumn(TEMPLATES, TextColumn("edition", "VARCHAR(32)", Some(Text("community")))),
     AddColumn(TEMPLATES, TextColumn("supported_languages", "VARCHAR(64)", Some(Text("ar,en")))),
     AddColumn(TEMPLATES, TextColumn("active", "BOOLEAN", Some(Number("0")))),
     AddColumn(TEMPLATES, TextColumn("readiness_state", "VARCHAR(32)", Some(Text("draft")))),
     AddColumn(TEMPLATES, TextColumn("catalog_code", "VARCHAR(128)", None))]
  }

  function NotADemo(): Cond { Or(IsNull("template_kind"), IsNot("template_kind", "demo_template")) }

  function BlankCode(): Op {
    Fix(TEMPLATES, "catalog_code", Null, And(NotNull("catalog_code"), Blank("catalog_code")))
  }

  function DraftState(): Op {
    Fix(TEMPLATES, "readiness_state", Text("draft"),
        Or(Or(IsNull("readiness_state"), Is("readiness_state", "")),
            And(NotADemo(), Is("readiness_state", "prepared"))))
  }

  function Inactive(): Op { Fix(TEMPLATES, "active", Number("0"), NotADemo()) }

  /** Two indexes of earlier releases. */
  const OLD_KEY := "uq_cloud_template_package_version"
  const OLD_INDUSTRY_KEY := "uq_cloud_template_industry_package_version"

  function CatalogIndexes(): seq<Op> {
    [DropIndex(TEMPLATES, OLD_KEY),
     DropIndex(TEMPLATES, OLD_INDUSTRY_KEY),
     CreateIndex(TEMPLATES, Index("uq_cloud_template_catalog_code", true, ["catalog_code"], IsFilled("catalog_code"))),
     CreateIndex(TEMPLATES, Index("ix_cloud_template_catalog_identity", false,
       ["industry_code", "package_code", "odoo_version_code", "edition", "template_kind"], Always))]
  }

  /** _migrate_cloud_template_catalog. */
  function Catalog(): seq<Op> { CatalogColumns() + [BlankCode(), DraftState(), Inactive()] + CatalogIndexes() }

  // ---------------------------------------------------------------- putting programs together

  ghost predicate CrossSafe(a: seq<Op>, b: seq<Op>) {
    forall i, j | 0 <= i < |a| && 0 <= j < |b| :: Safe(a[i], b[j])
  }

  lemma OrderlyAppend(a: seq<Op>, b: seq<Op>)
    requires Orderly(a) && Orderly(b) && CrossSafe(a, b)
    ensures Orderly(a + b)
  {
    forall i, j | 0 <= i < j < |a + b| ensures Safe((a + b)[i], (a + b)[j]) {
      if i < |a| && j >= |a| {
        assert Safe(a[i], b[j - |a|]);
      }
    }
  }

  /** ADD COLUMN of nullable columns only, on none of the given tables. */
  predicate Additive(ops: seq<Op>, not: set<string>) {
    forall i | 0 <= i < |ops| ::
      ops[i].AddColumn? && !ops[i].column.notnull && ops[i].column.pk == 0 && ops[i].table !in not
  }

  lemma AdditiveIsOrderly(ops: seq<Op>)
    requires Additive(ops, {})
    ensures Orderly(ops)
  {
  }

  lemma AdditiveIsSafeLater(a: seq<Op>, b: seq<Op>)
    requires Additive(b, {})
    ensures CrossSafe(a, b)
  {
  }

  lemma AdditiveIsSafeEarlier(a: seq<Op>, b: seq<Op>, not: set<string>)
    requires Additive(a, not)
    requires forall j | 0 <= j < |b| && b[j].CreateTable? :: b[j].table in not
    ensures CrossSafe(a, b)
  {
  }

  lemma CatalogFixesAreOrderly()
    ensures Orderly([BlankCode(), DraftState(), Inactive()])
  {
    assert Safe(BlankCode(), DraftState()) by {
      assert Mentions(BlankCode().cond) == {"catalog_code"};
    }
    assert Safe(BlankCode(), Inactive()) by {
      assert Mentions(BlankCode().cond) == {"catalog_code"};
    }
    assert Safe(DraftState(), Inactive()) by {
      assert Mentions(NotADemo()) == {"template_kind"};
      assert Mentions(DraftState().cond) == {"readiness_state", "template_kind"};
    }
  }

  lemma NotReserved(name: string)
    requires name != "" && name[0] != 's'
    ensures !StartsWith(name, "sqlite_")
  {
    assert "sqlite_"[0] == 's' && (|name| >= 7 ==> name[..7][0] == name[0]);
  }

  lemma CatalogIndexesAreOrderly()
    ensures Orderly(CatalogIndexes())
  {
    var ops := CatalogIndexes();
    forall i | 0 <= i < |ops| ensures Proper(ops[i]) {
      if ops[i].CreateIndex? {
        NotReserved(ops[i].index.name);
      }
    }
    assert |ops[0].name| == 33 && |ops[1].name| == 42 && |ops[2].index.name| == 30 && |ops[3].index.name| == 34;
  }

  lemma CatalogIsOrderly()
    ensures Orderly(Catalog())
  {
    var adds, fixes, indexes := CatalogColumns(), [BlankCode(), DraftState(), Inactive()], CatalogIndexes();
    assert Additive(adds, {});
    AdditiveIsOrderly(adds);
    CatalogFixesAreOrderly();
    CatalogIndexesAreOrderly();
    AdditiveIsSafeEarlier(adds, fixes, {});
    OrderlyAppend(adds, fixes);
    AdditiveIsSafeEarlier(adds, indexes, {});
    IndexesAfterFixes(adds, fixes, indexes);
    OrderlyAppend(adds + fixes, indexes);
  }

  lemma IndexesAfterFixes(a: seq<Op>, b: seq<Op>, c: seq<Op>)
    requires CrossSafe(a, c)
    requires forall i | 0 <= i < |b| :: b[i].Fix?
    requires forall i | 0 <= i < |c| :: c[i].CreateIndex? || c[i].DropIndex?
    ensures CrossSafe(a + b, c)
  {
  }

  // ---------------------------------------------------------------- the whole schema migration

  const SESSIONS := "quick_demo_sessions"
  const AUDIT := "quick_demo_audit_events"
  const IDENTITIES := "provider_identities"
  const ARTIFACTS := "solution_artifacts"
  const PROFILES := "solution_deployment_profiles"

  /** The column lists, in the order they are added, and the tables created on the way. */
  datatype Lists = Lists(
    sessions: Table, audit: Table, identities: Table, artifacts: Table, profiles: Table,
    quick: seq<Op>, core: seq<Op>, users: seq<Op>, idp: seq<Op>, plans: seq<Op>, solutions: seq<Op>, proxmox: seq<Op>)

  function Created(): set<string> { {SESSIONS, AUDIT, IDENTITIES, ARTIFACTS, PROFILES} }

  ghost predicate GoodLists(l: Lists) {
    && (forall t | t in {l.sessions, l.audit, l.identities, l.artifacts, l.profiles} :: WellFormed(t) && t.rows == [])
    && Additive(l.quick, Created() - {SESSIONS}) && Additive(l.core, Created()) && Additive(l.users, Created())
    && Additive(l.idp, Created() - {IDENTITIES}) && Additive(l.plans, Created()) && Additive(l.solutions, Created())
    && Additive(l.proxmox, Created())
  }

  function QuickIndexes(): seq<Op> {
    [CreateIndex(SESSIONS, Index("uq_quick_demo_runtime_slot", true, ["runtime_slot"], IsSet("runtime_slot"))),
     CreateIndex(SESSIONS, Index("uq_quick_demo_allocation_id", true, ["allocation_id"], IsSet("allocation_id")))]
  }

  function SubjectIndex(): Op {
    CreateIndex(IDENTITIES, Index("uq_provider_identity_subject", true, ["provider", "provider_subject"], Always))
  }

  function QuickPart(l: Lists): seq<Op> {
    [CreateTable(SESSIONS, l.sessions, true), CreateTable(AUDIT, l.audit, true)] + l.quick + QuickIndexes()
  }

  function RelaxPart(l: Lists): seq<Op> {
    [RelaxNotNull("template_databases", "solution_id"), RelaxNotNull("tenants", "customer_subscription_id"),
     RelaxNotNull("backup_policies", "customer_subscription_id")]
    + l.core
    + [RelaxNotNull("users", "github_id"), RelaxNotNull("users", "github_login")]
    + l.users
  }

  function IdentityPart(l: Lists): seq<Op> { [CreateTable(IDENTITIES, l.identities, false)] + l.idp + [SubjectIndex()] }

  function LatePart(l: Lists): seq<Op> {
    [CreateTable(ARTIFACTS, l.artifacts, false), CreateTable(PROFILES, l.profiles, false)] + l.proxmox
  }

  /** migrate_schema. */
  function SchemaProgram(l: Lists): seq<Op> {
    QuickPart(l) + RelaxPart(l) + IdentityPart(l) + l.plans + Catalog() + l.solutions + LatePart(l)
  }

  lemma AppendOne(ops: seq<Op>, op: Op)
    requires Orderly(ops) && Proper(op) && forall i | 0 <= i < |ops| :: Safe(ops[i], op)
    ensures Orderly(ops + [op])
  {
    OrderlyAppend(ops, [op]);
  }

  lemma AppendAdds(ops: seq<Op>, adds: seq<Op>)
    requires Orderly(ops) && Additive(adds, {})
    ensures Orderly(ops + adds)
  {
    AdditiveIsOrderly(adds);
    AdditiveIsSafeLater(ops, adds);
    OrderlyAppend(ops, adds);
  }

  /** What the later parts need to know of the earlier ones: no UPDATE or DROP yet, no table of `absent`, and none of
      the two index names dropped later. */
  predicate Quiet(ops: seq<Op>, absent: set<string>) {
    forall i | 0 <= i < |ops| ::
      && !ops[i].Fix? && !ops[i].DropIndex? && ops[i].table !in absent
      && (ops[i].CreateIndex? ==>
            ops[i].index.name !in {OLD_KEY, OLD_INDUSTRY_KEY} && ops[i].table in {SESSIONS, IDENTITIES})
  }

  lemma AppendQuiet(a: seq<Op>, b: seq<Op>, absent: set<string>)
    requires Quiet(a, absent) && Quiet(b, absent)
    ensures Quiet(a + b, absent)
  {
  }

  lemma QuickPartIsOrderly(l: Lists)
    requires GoodLists(l)
    ensures Orderly(QuickPart(l)) && Quiet(QuickPart(l), {IDENTITIES, ARTIFACTS, PROFILES})
  {
    var ops := [CreateTable(SESSIONS, l.sessions, true), CreateTable(AUDIT, l.audit, true)];
    assert |SESSIONS| == 19 && |AUDIT| == 23;
    assert Orderly(ops);
    AppendAdds(ops, l.quick);
    NotReserved(QuickIndexes()[0].index.name);
    NotReserved(QuickIndexes()[1].index.name);
    AppendOne(ops + l.quick, QuickIndexes()[0]);
    AppendOne(ops + l.quick + [QuickIndexes()[0]], QuickIndexes()[1]);
    assert QuickPart(l) == ops + l.quick + [QuickIndexes()[0]] + [QuickIndexes()[1]];
    assert |IDENTITIES| == 19 && |ARTIFACTS| == 18 && |PROFILES| == 28 && SESSIONS[0] != IDENTITIES[0];
    assert Quiet(ops, {IDENTITIES, ARTIFACTS, PROFILES});
    assert Quiet(l.quick, {IDENTITIES, ARTIFACTS, PROFILES});
    assert |QuickIndexes()[0].index.name| == 26 && |QuickIndexes()[1].index.name| == 27;
    assert |OLD_KEY| == 33 && |OLD_INDUSTRY_KEY| == 42;
    assert Quiet(QuickIndexes(), {IDENTITIES, ARTIFACTS, PROFILES});
  }

  lemma RelaxedTablesAreOld()
    ensures {"template_databases", "tenants", "backup_policies", "users"} !! {SESSIONS, IDENTITIES, ARTIFACTS, PROFILES}
  {
    assert |SESSIONS| == 19 && |IDENTITIES| == 19 && |ARTIFACTS| == 18 && |PROFILES| == 28;
    assert |"tenants"| == 7 && |"backup_policies"| == 15 && |"users"| == 5;
    assert |"template_databases"| == 18 && ARTIFACTS[0] == 's' && "template_databases"[0] == 't';
  }

  lemma AppendRelax(ops: seq<Op>, table: string, name: string)
    requires Orderly(ops) && Quiet(ops, {IDENTITIES, ARTIFACTS, PROFILES})
    requires table !in {SESSIONS, IDENTITIES, ARTIFACTS, PROFILES}
    ensures Orderly(ops + [RelaxNotNull(table, name)])
    ensures Quiet(ops + [RelaxNotNull(table, name)], {IDENTITIES, ARTIFACTS, PROFILES})
  {
    AppendOne(ops, RelaxNotNull(table, name));
    AppendQuiet(ops, [RelaxNotNull(table, name)], {IDENTITIES, ARTIFACTS, PROFILES});
  }

  lemma AppendQuietAdds(ops: seq<Op>, adds: seq<Op>, absent: set<string>, not: set<string>)
    requires Orderly(ops) && Quiet(ops, absent) && Additive(adds, not) && absent <= not
    ensures Orderly(ops + adds) && Quiet(ops + adds, absent)
  {
    AppendAdds(ops, adds);
    assert Quiet(adds, absent);
    AppendQuiet(ops, adds, absent);
  }

  lemma RelaxPartIsOrderly(l: Lists)
    requires GoodLists(l)
    ensures Orderly(QuickPart(l) + RelaxPart(l)) && Quiet(QuickPart(l) + RelaxPart(l),
        {IDENTITIES, ARTIFACTS, PROFILES})
  {
    var absent := {IDENTITIES, ARTIFACTS, PROFILES};
    QuickPartIsOrderly(l);
    RelaxedTablesAreOld();
    var p := QuickPart(l);
    AppendRelax(p, "template_databases", "solution_id");
    var p1 := p + [RelaxNotNull("template_databases", "solution_id")];
    AppendRelax(p1, "tenants", "customer_subscription_id");
    var p2 := p1 + [RelaxNotNull("tenants", "customer_subscription_id")];
    AppendRelax(p2, "backup_policies", "customer_subscription_id");
    var p3 := p2 + [RelaxNotNull("backup_policies", "customer_subscription_id")];
    AppendQuietAdds(p3, l.core, absent, Created());
    AppendRelax(p3 + l.core, "users", "github_id");
    var p4 := p3 + l.core + [RelaxNotNull("users", "github_id")];
    AppendRelax(p4, "users", "github_login");
    var p5 := p4 + [RelaxNotNull("users", "github_login")];
    AppendQuietAdds(p5, l.users, absent, Created());
    assert p5 + l.users == QuickPart(l) + RelaxPart(l);
  }

  lemma IdentityPartIsOrderly(l: Lists)
    requires GoodLists(l)
    ensures var ops := QuickPart(l) + RelaxPart(l) + IdentityPart(l); Orderly(ops) && Quiet(ops, {ARTIFACTS, PROFILES})
  {
    var p, absent := QuickPart(l) + RelaxPart(l), {ARTIFACTS, PROFILES};
    RelaxPartIsOrderly(l);
    assert Quiet(p, absent);
    assert |IDENTITIES| == 19 && |ARTIFACTS| == 18 && |PROFILES| == 28 && |SubjectIndex().index.name| == 28;
    assert |OLD_KEY| == 33 && |OLD_INDUSTRY_KEY| == 42;
    var create := CreateTable(IDENTITIES, l.identities, false);
    AppendOne(p, create);
    AppendQuiet(p, [create], absent);
    AppendQuietAdds(p + [create], l.idp, absent, Created() - {IDENTITIES});
    NotReserved(SubjectIndex().index.name);
    AppendOne(p + [create] + l.idp, SubjectIndex());
    AppendQuiet(p + [create] + l.idp, [SubjectIndex()], absent);
    assert p + [create] + l.idp + [SubjectIndex()] == p + IdentityPart(l);
  }

  predicate Avoids(ops: seq<Op>, tables: set<string>) { forall i | 0 <= i < |ops| :: ops[i].table !in tables }

  lemma CatalogIsSafeAfter(ops: seq<Op>, absent: set<string>)
    requires Quiet(ops, absent)
    ensures CrossSafe(ops, Catalog())
  {
    forall i, j | 0 <= i < |ops| && 0 <= j < |Catalog()| ensures Safe(ops[i], Catalog()[j]) {
      assert !Catalog()[j].CreateTable? && !Catalog()[j].RelaxNotNull?;
      assert Catalog()[j].AddColumn? ==> !Catalog()[j].column.notnull;
    }
  }

  lemma CatalogAvoidsCreated()
    ensures Avoids(Catalog(), {ARTIFACTS, PROFILES})
  {
    assert |TEMPLATES| == 15 && |ARTIFACTS| == 18 && |PROFILES| == 28;
    assert forall j | 0 <= j < |Catalog()| :: Catalog()[j].table == TEMPLATES;
  }

  lemma LatePartIsOrderly(ops: seq<Op>, l: Lists)
    requires GoodLists(l) && Orderly(ops) && Avoids(ops, {ARTIFACTS, PROFILES})
    ensures Orderly(ops + LatePart(l))
  {
    var one, two := CreateTable(ARTIFACTS, l.artifacts, false), CreateTable(PROFILES, l.profiles, false);
    assert |ARTIFACTS| == 18 && |PROFILES| == 28;
    assert Proper(one) && Proper(two);
    AppendOne(ops, one);
    forall i | 0 <= i < |ops + [one]| ensures Safe((ops + [one])[i], two) {
      assert (ops + [one])[i].table != PROFILES;
    }
    AppendOne(ops + [one], two);
    assert Additive(l.proxmox, {});
    AppendAdds(ops + [one] + [two], l.proxmox);
    assert ops + [one] + [two] + l.proxmox == ops + LatePart(l);
  }

  /** No step of migrate_schema undoes an earlier one, so it converges from any legacy schema, keeps every column and
      row, and changes nothing the second time. */
  lemma SchemaProgramIsOrderly(l: Lists)
    requires GoodLists(l)
    ensures Orderly(SchemaProgram(l))
  {
    var p := QuickPart(l) + RelaxPart(l) + IdentityPart(l);
    IdentityPartIsOrderly(l);
    AppendQuietAdds(p, l.plans, {ARTIFACTS, PROFILES}, Created());
    CatalogIsSafeAfter(p + l.plans, {ARTIFACTS, PROFILES});
    CatalogIsOrderly();
    OrderlyAppend(p + l.plans, Catalog());
    AppendAdds(p + l.plans + Catalog(), l.solutions);
    CatalogAvoidsCreated();
    assert Avoids(p + l.plans, {ARTIFACTS, PROFILES}) && Avoids(l.solutions, {ARTIFACTS, PROFILES});
    LatePartIsOrderly(p + l.plans + Catalog() + l.solutions, l);
  }

  /** The three results for migrate_schema itself. */
  lemma MigrateSchemaConverges(l: Lists, db: Db)
    requires GoodLists(l) && Sound(db) && Run(db, SchemaProgram(l)).Some?
    ensures var after := Run(db, SchemaProgram(l)).value;
            && Run(after, SchemaProgram(l)) == Some(after)
            && Created() <= after.Keys
            && (forall op | op in SchemaProgram(l) && op.AddColumn? && op.table in after ::
                  HasColumn(after[op.table], op.column.name))
            && (forall op | op in SchemaProgram(l) && op.CreateIndex? && op.table in after ::
                  && Taken(after, op.index.name)
                  && (!Taken(db, op.index.name) && !Defines(l, op.index.name) ==>
                        op.index in after[op.table].indexes))
            && (forall op | op in SchemaProgram(l) && op.RelaxNotNull? && op.table in after ::
                  !Rebuild.IsNotNull(after[op.table], op.name))
  {
    var ops := SchemaProgram(l);
    SchemaProgramIsOrderly(l);
    MigrationReachesAll(db, ops);
    MigrationIsIdempotent(db, ops);
    var after := Run(db, ops).value;
    forall op | op in ops ensures Done(after, op) {
      var i :| 0 <= i < |ops| && ops[i] == op;
    }
    forall t | t in Created() ensures t in after {
      CreatedIsListed(l, t);
    }
    ListedIndexesStand(l, db);
  }

  lemma ListedIndexesStand(l: Lists, db: Db)
    requires GoodLists(l) && Sound(db) && Run(db, SchemaProgram(l)).Some?
    ensures forall op | op in SchemaProgram(l) && op.CreateIndex? && op.table in Run(db, SchemaProgram(l)).value
                        && !Taken(db, op.index.name) && !Defines(l, op.index.name) ::
              op.index in Run(db, SchemaProgram(l)).value[op.table].indexes
  {
    forall op | op in SchemaProgram(l) && op.CreateIndex? && op.table in Run(db, SchemaProgram(l)).value
                && !Taken(db, op.index.name) && !Defines(l, op.index.name)
      ensures op.index in Run(db, SchemaProgram(l)).value[op.table].indexes
    {
      ListedIndexStands(l, db, op);
    }
  }

  lemma ListedIndexStands(l: Lists, db: Db, op: Op)
    requires GoodLists(l) && Sound(db) && Run(db, SchemaProgram(l)).Some?
    requires op in SchemaProgram(l) && op.CreateIndex? && op.table in Run(db, SchemaProgram(l)).value
    requires !Taken(db, op.index.name) && !Defines(l, op.index.name)
    ensures op.index in Run(db, SchemaProgram(l)).value[op.table].indexes
  {
    var ops := SchemaProgram(l);
    var i :| 0 <= i < |ops| && ops[i] == op;
    SchemaProgramIsOrderly(l);
    BroughtOnce(l, i);
    IndexIsBuilt(db, ops, i);
  }

  /** One of the tables made on the way has an index of this name. */
  predicate Defines(l: Lists, name: string) {
    exists t | t in {l.sessions, l.audit, l.identities, l.artifacts, l.profiles} :: HasIndex(t, name)
  }

  /** The indexes a program makes have names of this set, each once, and its tables are among those of the lists. */
  ghost predicate Makes(ops: seq<Op>, names: set<string>, l: Lists) {
    && (forall i | 0 <= i < |ops| && ops[i].CreateIndex? :: ops[i].index.name in names)
    && (forall i, j | 0 <= i < j < |ops| && ops[i].CreateIndex? && ops[j].CreateIndex? ::
          ops[i].index.name != ops[j].index.name)
    && (forall i | 0 <= i < |ops| && ops[i].CreateTable? ::
          ops[i].def in {l.sessions, l.audit, l.identities, l.artifacts, l.profiles})
  }

  lemma MakesAppend(a: seq<Op>, b: seq<Op>, some: set<string>, more: set<string>, l: Lists)
    requires Makes(a, some, l) && Makes(b, more, l) && some !! more
    ensures Makes(a + b, some + more, l)
  {
  }

  lemma CatalogMakes(l: Lists)
    ensures Makes(Catalog(), {CatalogIndexes()[2].index.name, CatalogIndexes()[3].index.name}, l)
  {
    var ops := CatalogIndexes();
    assert |ops[2].index.name| == 30 && |ops[3].index.name| == 34;
    assert Makes(CatalogColumns(), {}, l) && Makes([BlankCode(), DraftState(), Inactive()], {}, l);
    MakesAppend(CatalogColumns(), [BlankCode(), DraftState(), Inactive()], {}, {}, l);
    var names := {ops[2].index.name, ops[3].index.name};
    assert Makes(ops, names, l);
    MakesAppend(CatalogColumns() + [BlankCode(), DraftState(), Inactive()], ops, {} + {}, names, l);
    assert {} + {} + names == names;
  }

  function QuickNames(): set<string> { {QuickIndexes()[0].index.name, QuickIndexes()[1].index.name} }

  lemma PartsMake(l: Lists)
    requires GoodLists(l)
    ensures Makes(QuickPart(l), QuickNames(), l) && Makes(RelaxPart(l), {}, l)
    ensures Makes(IdentityPart(l), {SubjectIndex().index.name}, l) && Makes(LatePart(l), {}, l)
  {
    assert |QuickIndexes()[0].index.name| == 26 && |QuickIndexes()[1].index.name| == 27;
  }

  /** No index name comes twice in migrate_schema. */
  lemma BroughtOnce(l: Lists, i: nat)
    requires GoodLists(l) && i < |SchemaProgram(l)| && SchemaProgram(l)[i].CreateIndex?
    requires !Defines(l, SchemaProgram(l)[i].index.name)
    ensures forall j | 0 <= j < i :: !Brings(SchemaProgram(l)[j], SchemaProgram(l)[i].index.name)
  {
    var one, two, three := QuickNames(), {SubjectIndex().index.name},
        {CatalogIndexes()[2].index.name, CatalogIndexes()[3].index.name};
    assert |QuickIndexes()[0].index.name| == 26 && |QuickIndexes()[1].index.name| == 27;
    assert |SubjectIndex().index.name| == 28;
    assert |CatalogIndexes()[2].index.name| == 30 && |CatalogIndexes()[3].index.name| == 34;
    PartsMake(l);
    CatalogMakes(l);
    assert Makes(l.plans, {}, l) && Makes(l.solutions, {}, l);
    var p := QuickPart(l) + RelaxPart(l);
    MakesAppend(QuickPart(l), RelaxPart(l), one, {}, l);
    MakesAppend(p, IdentityPart(l), one + {}, two, l);
    MakesAppend(p + IdentityPart(l), l.plans, one + {} + two, {}, l);
    MakesAppend(p + IdentityPart(l) + l.plans, Catalog(), one + {} + two + {}, three, l);
    var names := one + {} + two + {} + three;
    MakesAppend(p + IdentityPart(l) + l.plans + Catalog(), l.solutions, names, {}, l);
    MakesAppend(p + IdentityPart(l) + l.plans + Catalog() + l.solutions, LatePart(l), names + {}, {}, l);
    OnceIsFirst(SchemaProgram(l), names + {} + {}, l, i);
  }

  lemma OnceIsFirst(ops: seq<Op>, names: set<string>, l: Lists, i: nat)
    requires Makes(ops, names, l) && i < |ops| && ops[i].CreateIndex? && !Defines(l, ops[i].index.name)
    ensures forall j | 0 <= j < i :: !Brings(ops[j], ops[i].index.name)
  {
  }

  lemma PartsAreListed(l: Lists, op: Op)
    requires op in QuickPart(l) || op in IdentityPart(l) || op in LatePart(l)
    ensures op in SchemaProgram(l)
  {
  }

  lemma CreatedIsListed(l: Lists, t: string)
    requires t in Created()
    ensures exists op :: op in SchemaProgram(l) && op.CreateTable? && op.table == t
  {
    assert QuickPart(l)[0] == CreateTable(SESSIONS, l.sessions, true);
    assert QuickPart(l)[1] == CreateTable(AUDIT, l.audit, true);
    assert IdentityPart(l)[0] == CreateTable(IDENTITIES, l.identities, false);
    assert LatePart(l)[0] == CreateTable(ARTIFACTS, l.artifacts, false);
    assert LatePart(l)[1] == CreateTable(PROFILES, l.profiles, false);
    var op :=
      if t == SESSIONS then QuickPart(l)[0] else if t == AUDIT then QuickPart(l)[1]
      else if t == IDENTITIES then IdentityPart(l)[0]
      else if t == ARTIFACTS then LatePart(l)[0] else LatePart(l)[1];
    PartsAreListed(l, op);
  }

  ghost predicate TypedLists(l: Lists) {
    && (forall t | t in {l.sessions, l.audit, l.identities, l.artifacts, l.profiles} :: Typed(t))
    && (forall op | op in l.quick + l.core + l.users + l.idp + l.plans + l.solutions + l.proxmox :: TypedOp(op))
  }

  predicate IsCatalogFix(op: Op) { op == BlankCode() || op == DraftState() || op == Inactive() }

  ghost predicate Ordinary(ops: seq<Op>) { forall i | 0 <= i < |ops| :: TypedOp(ops[i]) && !ops[i].Fix? }

  lemma OrdinaryAppend(a: seq<Op>, b: seq<Op>)
    requires Ordinary(a) && Ordinary(b)
    ensures Ordinary(a + b)
  {
  }

  lemma OrdinaryLists(l: Lists)
    requires GoodLists(l) && TypedLists(l)
    ensures Ordinary(l.quick) && Ordinary(l.core) && Ordinary(l.users) && Ordinary(l.idp) && Ordinary(l.plans)
            && Ordinary(l.solutions) && Ordinary(l.proxmox)
  {
    assert forall op | op in l.quick || op in l.core || op in l.users || op in l.idp || op in l.plans
             || op in l.solutions || op in l.proxmox ::
             op in l.quick + l.core + l.users + l.idp + l.plans + l.solutions + l.proxmox;
  }

  lemma EarlyPartsAreOrdinary(l: Lists)
    requires GoodLists(l) && TypedLists(l)
    ensures Ordinary(QuickPart(l)) && Ordinary(RelaxPart(l)) && Ordinary(IdentityPart(l)) && Ordinary(LatePart(l))
  {
    OrdinaryLists(l);
    assert Typed(l.sessions) && Typed(l.audit) && Typed(l.identities) && Typed(l.artifacts) && Typed(l.profiles);
  }

  lemma CatalogKinds()
    ensures forall i | 0 <= i < |Catalog()| ::
              TypedOp(Catalog()[i]) && (Catalog()[i].Fix? ==> IsCatalogFix(Catalog()[i]))
  {
    assert forall k | 0 <= k < |CatalogColumns()| ::
             CatalogColumns()[k].AddColumn? && CatalogColumns()[k].column.ctype != "";
    assert forall k | 0 <= k < |CatalogIndexes()| :: !CatalogIndexes()[k].Fix? && TypedOp(CatalogIndexes()[k]);
  }

  /** The only UPDATEs of migrate_schema are the three of the catalog. */
  lemma SchemaOpKinds(l: Lists)
    requires GoodLists(l) && TypedLists(l)
    ensures var ops := SchemaProgram(l);
            forall i | 0 <= i < |ops| :: TypedOp(ops[i]) && (ops[i].Fix? ==> IsCatalogFix(ops[i]))
  {
    var before := QuickPart(l) + RelaxPart(l) + IdentityPart(l) + l.plans;
    EarlyPartsAreOrdinary(l);
    OrdinaryLists(l);
    CatalogKinds();
    OrdinaryAppend(QuickPart(l), RelaxPart(l));
    OrdinaryAppend(QuickPart(l) + RelaxPart(l), IdentityPart(l));
    OrdinaryAppend(QuickPart(l) + RelaxPart(l) + IdentityPart(l), l.plans);
    OrdinaryAppend(l.solutions, LatePart(l));
    assert SchemaProgram(l) == before + Catalog() + (l.solutions + LatePart(l));
  }

  lemma WrittenByCatalog(ops: seq<Op>, table: string)
    requires forall i | 0 <= i < |ops| && ops[i].Fix? :: IsCatalogFix(ops[i])
    ensures Written(ops, table) <= if table == TEMPLATES then {"catalog_code", "readiness_state", "active"} else {}
  {
    forall k | k in Written(ops, table)
      ensures table == TEMPLATES && k in {"catalog_code", "readiness_state", "active"}
    {
      var i :| 0 <= i < |ops| && ops[i].Fix? && ops[i].table == table && ops[i].col == k;
      assert IsCatalogFix(ops[i]);
    }
  }

  /** migrate_schema drops no table, column or row of a typed legacy database, and changes no cell outside
      the three normalised catalog columns. */
  lemma MigrateSchemaKeepsData(l: Lists, db: Db, table: string)
    requires GoodLists(l) && TypedLists(l) && Sound(db) && TypedDb(db) && table in db
    requires Run(db, SchemaProgram(l)).Some?
    ensures table in Run(db, SchemaProgram(l)).value
    ensures Grew(db[table], Run(db, SchemaProgram(l)).value[table],
                 if table == TEMPLATES then {"catalog_code", "readiness_state", "active"} else {})
  {
    var ops := SchemaProgram(l);
    SchemaProgramIsOrderly(l);
    SchemaOpKinds(l);
    MigrationKeepsData(db, ops, table);
    WrittenByCatalog(ops, table);
  }

  // ---------------------------------------------------------------- the subscription data

  function Unset(col: string): Cond { Or(IsNull(col), Is(col, "")) }

  /** The classifying UPDATEs of migrate_subscription_data. */
  function Subscriptions(): seq<Op> {
    [Fix("customer_subscriptions", "subscription_type", Text("solution"), Unset("subscription_type")),
     Fix("subscriptions", "subscription_type", Text("platform"), Unset("subscription_type")),
     Fix("customer_subscriptions", "product_line", Text("ready_solution"), Unset("product_line")),
     Fix("subscriptions", "product_line", Text("developer_platform"), Unset("product_line")),
     Fix("projects", "product_line", Text("developer_platform"), Unset("product_line")),
     FromSolution(), FromTrial(),
     Fix("users", "auth_provider", Text("github"), And(Unset("auth_provider"), NotNull("github_id")))]
  }

  function FromSolution(): Op {
    Fix("tenants", "product_line", Text("ready_solution"), And(IsNull("product_line"),
        NotNull("customer_subscription_id")))
  }

  function FromTrial(): Op {
    Fix("tenants", "product_line", Text("developer_platform"),
        And(IsNull("product_line"), NotNull("platform_trial_id")))
  }

  lemma EachFillsBlanks(op: Op, row: Row)
    requires op in Subscriptions() && Holds(op.cond, row)
    ensures Get(row, op.col) == Null || Get(row, op.col) == Text("")
  {
    assert op.cond.And? ==> Holds(op.cond.left, row);
    assert forall col :: Holds(Unset(col), row) ==> Get(row, col) == Null || Get(row, col) == Text("");
  }

  /** What a program of UPDATEs makes of one row of a table. */
  function FixAll(row: Row, ops: seq<Op>, table: string): Row {
    if ops == [] then row
    else
      var before, op := FixAll(row, ops[..|ops| - 1], table), ops[|ops| - 1];
      if op.Fix? && op.table == table then FixRow(before, op.col, op.value, op.cond) else before
  }

  lemma {:induction false} FixesAreRowByRow(db: Db, ops: seq<Op>, table: string)
    requires (forall i | 0 <= i < |ops| :: ops[i].Fix?) && table in db && Run(db, ops).Some?
    ensures table in Run(db, ops).value
    ensures var after := Run(db, ops).value[table];
            && after.columns == db[table].columns && |after.rows| == |db[table].rows|
            && forall i | 0 <= i < |after.rows| :: after.rows[i] == FixAll(db[table].rows[i], ops, table)
  {
    if ops != [] {
      FixesAreRowByRow(db, ops[..|ops| - 1], table);
    }
  }

  /** A classification changes NULL and empty cells only: whatever cell it changed was one of these before. */
  lemma SubscriptionsFillBlanks(db: Db, table: string, i: nat, k: string)
    requires table in db && Run(db, Subscriptions()).Some? && i < |db[table].rows|
    ensures table in Run(db, Subscriptions()).value && i < |Run(db, Subscriptions()).value[table].rows|
    ensures var before, after := db[table].rows[i], Run(db, Subscriptions()).value[table].rows[i];
            Get(after, k) == Get(before, k) || Get(before, k) == Null || Get(before, k) == Text("")
  {
    var ops := Subscriptions();
    FixesAreRowByRow(db, ops, table);
    RowFillsBlanks(db[table].rows[i], table, ops, k);
  }

  lemma {:induction false} RowFillsBlanks(row: Row, table: string, ops: seq<Op>, k: string)
    requires forall i | 0 <= i < |ops| :: ops[i] in Subscriptions()
    ensures var after := FixAll(row, ops, table);
            Get(after, k) == Get(row, k) || Get(row, k) == Null || Get(row, k) == Text("")
  {
    if ops != [] {
      var last := |ops| - 1;
      RowFillsBlanks(row, table, ops[..last], k);
      var before := FixAll(row, ops[..last], table);
      if Holds(ops[last].cond, before) {
        EachFillsBlanks(ops[last], before);
      }
    }
  }

  lemma SubscriptionsAreOrderly()
    ensures Orderly(Subscriptions())
  {
    var ops := Subscriptions();
    TypesAndLinesAreSafe("customer_subscriptions", Text("solution"), Text("ready_solution"));
    TypesAndLinesAreSafe("subscriptions", Text("platform"), Text("developer_platform"));
    assert Safe(FromSolution(), FromTrial());
    forall i, j | 0 <= i < j < |ops| ensures Safe(ops[i], ops[j]) {
      assert |ops[i].table| == [22, 13, 22, 13, 8, 7, 7, 5][i] && |ops[j].table| == [22, 13, 22, 13, 8, 7, 7, 5][j];
      if ops[i].table == ops[j].table {
        assert (i == 0 && j == 2) || (i == 1 && j == 3) || (i == 5 && j == 6);
      }
    }
  }

  lemma TypesAndLinesAreSafe(table: string, a: Cell, b: Cell)
    ensures Safe(Fix(table, "subscription_type", a, Unset("subscription_type")),
                 Fix(table, "product_line", b, Unset("product_line")))
  {
    assert Mentions(Unset("subscription_type")) == {"subscription_type"};
    assert |"subscription_type"| == 17 && |"product_line"| == 12;
  }

  /** A second classification changes nothing. */
  lemma SubscriptionsAreIdempotent(db: Db)
    requires Sound(db) && Run(db, Subscriptions()).Some?
    ensures Run(Run(db, Subscriptions()).value, Subscriptions()) == Run(db, Subscriptions())
  {
    SubscriptionsAreOrderly();
    MigrationIsIdempotent(db, Subscriptions());
  }

  /** A tenant's product line after both UPDATEs: what it had, else by its links, the solution's first. */
  function Classified(row: Row): Cell {
    if Get(row, "product_line") != Null then Get(row, "product_line")
    else if Get(row, "customer_subscription_id") != Null then Text("ready_solution")
    else if Get(row, "platform_trial_id") != Null then Text("developer_platform")
    else Null
  }

  lemma RowIsClassified(row: Row)
    requires "product_line" in row
    ensures var once := FixRow(row, "product_line", Text("ready_solution"), FromSolution().cond);
            var twice := FixRow(once, "product_line", Text("developer_platform"), FromTrial().cond);
            twice == row["product_line" := Classified(row)]
  {
    var once := FixRow(row, "product_line", Text("ready_solution"), FromSolution().cond);
    assert "product_line" != "customer_subscription_id" && "product_line" != "platform_trial_id" by {
      assert |"product_line"| == 12 && |"customer_subscription_id"| == 24 && |"platform_trial_id"| == 17;
    }
    assert Holds(FromSolution().cond, row) <==>
           Get(row, "product_line") == Null && Get(row, "customer_subscription_id") != Null by {
      assert Holds(FromSolution().cond.left, row) <==> Get(row, "product_line") == Null;
      assert Holds(FromSolution().cond.right, row) <==> Get(row, "customer_subscription_id") != Null;
    }
    assert Holds(FromTrial().cond, once) <==>
           Get(once, "product_line") == Null && Get(once, "platform_trial_id") != Null by {
      assert Holds(FromTrial().cond.left, once) <==> Get(once, "product_line") == Null;
      assert Holds(FromTrial().cond.right, once) <==> Get(once, "platform_trial_id") != Null;
    }
    assert row["product_line" := row["product_line"]] == row;
  }

  /** The first five UPDATEs are about other tables. */
  lemma FiveForOthers(row: Row)
    ensures FixAll(row, Subscriptions()[..5], "tenants") == row
  {
    var ops := Subscriptions();
    assert |"tenants"| == 7 && |ops[0].table| == 22 && |ops[1].table| == 13 && |ops[2].table| == 22;
    assert |ops[3].table| == 13 && |ops[4].table| == 8;
    FixPrefix(row, ops, 0);
    FixPrefix(row, ops, 1);
    FixPrefix(row, ops, 2);
    FixPrefix(row, ops, 3);
    FixPrefix(row, ops, 4);
    assert ops[..0] == [];
  }

  lemma OnlyTwoForTenants(row: Row)
    ensures var once := FixRow(row, "product_line", Text("ready_solution"), FromSolution().cond);
            FixAll(row, Subscriptions(), "tenants")
            == FixRow(once, "product_line", Text("developer_platform"), FromTrial().cond)
  {
    var ops := Subscriptions();
    assert |"tenants"| == 7 && |ops[7].table| == 5;
    FiveForOthers(row);
    FixPrefix(row, ops, 5);
    FixPrefix(row, ops, 6);
    FixPrefix(row, ops, 7);
    assert ops[..8] == ops;
  }

  lemma FixPrefix(row: Row, ops: seq<Op>, n: nat)
    requires n < |ops| && ops[n].Fix?
    ensures FixAll(row, ops[..n + 1], "tenants")
            == if ops[n].table == "tenants"
               then FixRow(FixAll(row, ops[..n], "tenants"), ops[n].col, ops[n].value, ops[n].cond)
               else FixAll(row, ops[..n], "tenants")
  {
    assert ops[..n + 1][..n] == ops[..n];
  }

  /** After a classification every tenant has the product line that its row asked for before, and nothing else of it is
      changed. */
  lemma TenantsAreClassified(db: Db, i: nat)
    requires Sound(db) && "tenants" in db && Run(db, Subscriptions()).Some? && i < |db["tenants"].rows|
    ensures "tenants" in Run(db, Subscriptions()).value && i < |Run(db, Subscriptions()).value["tenants"].rows|
    ensures var before, after := db["tenants"].rows[i], Run(db, Subscriptions()).value["tenants"].rows[i];
            after == before["product_line" := Classified(before)]
  {
    var ops, row := Subscriptions(), db["tenants"].rows[i];
    FixesAreRowByRow(db, ops, "tenants");
    OnlyTwoForTenants(row);
    HasProductLine(db, i);
    RowIsClassified(row);
  }

  lemma HasProductLine(db: Db, i: nat)
    requires Sound(db) && "tenants" in db && Run(db, Subscriptions()).Some? && i < |db["tenants"].rows|
    ensures "product_line" in db["tenants"].rows[i]
  {
    var ops := Subscriptions();
    SubscriptionsAreOrderly();
    MigrationReachesAll(db, ops);
    var after := Run(db, ops).value;
    FixesAreRowByRow(db, ops, "tenants");
    assert Done(after, ops[5]);
    assert "product_line" in Mentions(ops[5].cond) + {ops[5].col};
    ColumnsDecideNames(db["tenants"], after["tenants"]);
  }
}
