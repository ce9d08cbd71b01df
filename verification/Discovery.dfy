/** Fixture discovery: which catalogue objects a user may see. */
module Discovery {
  import opened Domain

  datatype Column = Column(name: string, dataType: string, nullable: bool)

  datatype CatalogueObject = CatalogueObject(
    objectId: string,
    displayName: string,
    columns: seq<Column>,
    allowedPrincipals: seq<string>)

  datatype UserContext = UserContext(userId: string, accessibleObjectIds: Option<seq<string>>)

  datatype DiscoveryError = UserContextRequired

  /** The characters that Python's `str.strip` removes. */
  predicate IsSpace(c: char) {
    || '\t' <= c <= '\r' || '\U{1C}' <= c <= ' ' || c == '\U{85}' || c == '\U{A0}' || c == '\U{1680}'
    || '\U{2000}' <= c <= '\U{200A}' || c == '\U{2028}' || c == '\U{2029}' || c == '\U{202F}' || c == '\U{205F}'
    || c == '\U{3000}'
  }

  function StripLeft(s: string): string {
    if s != [] && IsSpace(s[0]) then StripLeft(s[1..]) else s
  }

  function StripRight(s: string): string {
    if s != [] && IsSpace(s[|s| - 1]) then StripRight(s[..|s| - 1]) else s
  }

  function Strip(s: string): string {
    StripRight(StripLeft(s))
  }

  // ----- the catalogue the repository ships -----

  const ORDERS := CatalogueObject(
    "analytics.sales.orders", "Orders",
    [Column("order_id", "string", false), Column("customer_id", "string", false), Column("order_date", "date", false),
     Column("order_amount", "decimal", false), Column("status", "string", true)],
    ["consultant", "analyst", "data_engineer"])

  const CUSTOMERS := CatalogueObject(
    "analytics.sales.customers", "Customers",
    [Column("customer_id", "string", false), Column("customer_name", "string", false),
     Column("region", "string", true), Column("segment", "string", true)],
    ["consultant", "analyst", "data_engineer"])

  const PRODUCTS := CatalogueObject(
    "analytics.sales.products", "Products",
    [Column("product_id", "string", false), Column("product_name", "string", false),
     Column("category", "string", true)],
    ["consultant", "analyst", "data_engineer"])

  const SALARIES := CatalogueObject(
    "hr.payroll.salaries", "Salaries",
    [Column("employee_id", "string", false), Column("salary", "decimal", false), Column("currency", "string", false)],
    ["hr_admin"])

  const ACCESS_LOGS := CatalogueObject(
    "security.audit.access_logs", "Access logs",
    [Column("event_id", "string", false), Column("principal", "string", false), Column("action", "string", false)],
    ["security_admin"])

  const FIXTURE_CATALOGUE := [ORDERS, CUSTOMERS, PRODUCTS, SALARIES, ACCESS_LOGS]

  // ----- what a user may see -----

  predicate Blank(userId: Option<string>) {
    userId.None? || Strip(userId.value) == ""
  }

  function Select<T>(s: seq<T>, keep: T -> bool): seq<T> {
    if s == [] then
      []
    else
      var n := |s| - 1;
      if keep(s[n]) then Select(s[..n], keep) + [s[n]] else Select(s[..n], keep)
  }

  function ObjectIds(objects: seq<CatalogueObject>): (ids: seq<string>)
    ensures |ids| == |objects| && forall i :: 0 <= i < |ids| ==> ids[i] == objects[i].objectId
  {
    seq(|objects|, i requires 0 <= i < |objects| => objects[i].objectId)
  }

  function DiscoverAccessibleObjects(user: Option<UserContext>, catalogue: seq<CatalogueObject>)
    : Result<seq<CatalogueObject>, DiscoveryError>
  {
    if user.None? || Strip(user.value.userId) == "" then
      Err(UserContextRequired)
    else
      var visible := Select(catalogue, (o: CatalogueObject) => user.value.userId in o.allowedPrincipals);
      match user.value.accessibleObjectIds
      case None => Ok(visible)
      case Some(allow) => Ok(Select(visible, (o: CatalogueObject) => o.objectId in allow))
  }

  /** The user is on the object's access list and the allow-list, if there is one, names it. */
  predicate Visible(user: UserContext, o: CatalogueObject) {
    && user.userId in o.allowedPrincipals
    && (user.accessibleObjectIds.Some? ==> o.objectId in user.accessibleObjectIds.value)
  }

  lemma {:induction false} SelectTwice<T>(s: seq<T>, p: T -> bool, q: T -> bool, both: T -> bool)
    requires forall x :: both(x) <==> p(x) && q(x)
    ensures Select(Select(s, p), q) == Select(s, both)
  {
    if s != [] {
      var n := |s| - 1;
      SelectTwice(s[..n], p, q, both);
      if p(s[n]) {
        assert Select(s, p)[..|Select(s, p)| - 1] == Select(s[..n], p);
      }
    }
  }

  lemma {:induction false} SelectSame<T>(s: seq<T>, p: T -> bool, q: T -> bool)
    requires forall x :: p(x) <==> q(x)
    ensures Select(s, p) == Select(s, q)
  {
    if s != [] {
      SelectSame(s[..|s| - 1], p, q);
    }
  }

  lemma {:induction false} SelectMembers<T>(s: seq<T>, p: T -> bool)
    ensures forall x :: x in Select(s, p) <==> x in s && p(x)
  {
    if s != [] {
      var n := |s| - 1;
      SelectMembers(s[..n], p);
      assert forall x :: x in s <==> x in s[..n] || x == s[n];
    }
  }

  function VisibleObjects(user: UserContext, catalogue: seq<CatalogueObject>): seq<CatalogueObject> {
    Select(catalogue, (o: CatalogueObject) => Visible(user, o))
  }

  /** Discovery returns exactly the visible objects, in catalogue order: an allow-list can
      narrow what the access lists grant and never widens it. */
  lemma DiscoveryIsExact(user: UserContext, catalogue: seq<CatalogueObject>)
    requires Strip(user.userId) != ""
    ensures DiscoverAccessibleObjects(Some(user), catalogue) == Ok(VisibleObjects(user, catalogue))
    ensures forall o :: o in VisibleObjects(user, catalogue) <==> o in catalogue && Visible(user, o)
  {
    var acl := (o: CatalogueObject) => user.userId in o.allowedPrincipals;
    var visible := (o: CatalogueObject) => Visible(user, o);
    SelectMembers(catalogue, visible);
    match user.accessibleObjectIds {
      case None =>
        SelectSame(catalogue, acl, visible);
      case Some(allow) =>
        SelectTwice(catalogue, acl, (o: CatalogueObject) => o.objectId in allow, visible);
    }
  }

  lemma {:induction false} StripRightStripped(s: string)
    ensures var t := StripRight(s); t == [] || (!IsSpace(t[|t| - 1]) && (s != [] ==> t[0] == s[0]))
  {
    if s != [] && IsSpace(s[|s| - 1]) {
      StripRightStripped(s[..|s| - 1]);
    }
  }

  lemma {:induction false} StripLeftStripped(s: string)
    ensures var t := StripLeft(s); t == [] || !IsSpace(t[0])
  {
    if s != [] && IsSpace(s[0]) {
      StripLeftStripped(s[1..]);
    }
  }

  lemma {:induction false} StripLeftDrops(s: string) returns (n: nat)
    ensures n <= |s| && StripLeft(s) == s[n..] && forall k :: 0 <= k < n ==> IsSpace(s[k])
  {
    n := 0;
    if s != [] && IsSpace(s[0]) {
      var m := StripLeftDrops(s[1..]);
      n := m + 1;
      assert forall k :: 0 < k < n ==> s[k] == s[1..][k - 1];
    }
  }

  lemma {:induction false} StripRightDrops(s: string) returns (n: nat)
    ensures n <= |s| && StripRight(s) == s[..n] && forall k :: n <= k < |s| ==> IsSpace(s[k])
  {
    n := |s|;
    if s != [] && IsSpace(s[|s| - 1]) {
      n := StripRightDrops(s[..|s| - 1]);
      assert forall k :: n <= k < |s| - 1 ==> s[k] == s[..|s| - 1][k];
    }
  }

  /** Stripping cuts off exactly the white space at both ends. */
  lemma StripIsTrimming(s: string)
    ensures exists i, j ::
      && 0 <= i <= j <= |s| && Strip(s) == s[i..j]
      && (forall k :: 0 <= k < i || j <= k < |s| ==> IsSpace(s[k]))
    ensures var t := Strip(s); t != "" ==> !IsSpace(t[0]) && !IsSpace(t[|t| - 1])
  {
    var i := StripLeftDrops(s);
    var m := StripRightDrops(StripLeft(s));
    StripLeftStripped(s);
    StripRightStripped(StripLeft(s));
    assert Strip(s) == s[i..i + m];
    assert forall k :: i + m <= k < |s| ==> s[k] == s[i..][k - i];
  }

  /** Discovery refuses exactly the user ids that consist of white space. */
  lemma BlankMeansOnlySpace(s: string)
    ensures Blank(Some(s)) <==> forall c :: c in s ==> IsSpace(c)
  {
    StripIsTrimming(s);
    var i, j :|
      0 <= i <= j <= |s| && Strip(s) == s[i..j] && forall k :: 0 <= k < i || j <= k < |s| ==> IsSpace(s[k]);
    if Strip(s) != "" {
      assert s[i] == Strip(s)[0] && s[i] in s;
    }
  }

  /** The node strips the user id and the service strips it again. */
  lemma StripTwice(s: string)
    ensures Strip(Strip(s)) == Strip(s)
  {
    StripLeftStripped(s);
    StripRightStripped(StripLeft(s));
  }
}
