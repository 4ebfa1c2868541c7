/**
The allowlist: who may trigger the service.  A project is looked up under its path, say
example.com/namespace/repository.git, and under every prefix of the path that ends before a slash.
*/
module Allowlist {
  import opened Options
  import opened Strings

  datatype Status = ApprovedAutomatically | ApprovedManually | Waiting | Denied

  datatype Row = Row(namespace: string, status: Status, fasAccount: Option<string>)

  /** A refusal is False; the two errors are a KeyError and an IndexError. */
  datatype Verdict = Allowed | Refused | NoNamespace | NoProtocol

  predicate Approved(status: Status) {
    status.ApprovedAutomatically? || status.ApprovedManually?
  }

  /** Neither None nor the empty string. */
  predicate Given(s: Option<string>) {
    s.Some? && s.value != ""
  }

  // ---- The table ----

  /** get_namespace: the first row for the namespace. */
  function FindRow(rows: seq<Row>, namespace: string): (at: Option<nat>)
    ensures at.Some? ==> at.value < |rows| && rows[at.value].namespace == namespace
    ensures at.None? ==> forall i | 0 <= i < |rows| :: rows[i].namespace != namespace
  {
    if rows == [] then None
    else if rows[0].namespace == namespace then Some(0)
    else
      var at := FindRow(rows[1..], namespace);
      if at.None? then None else Some(at.value + 1)
  }

  function StatusOf(rows: seq<Row>, namespace: string): Option<Status> {
    var at := FindRow(rows, namespace);
    if at.None? then None else Some(rows[at.value].status)
  }

  /** add_namespace */
  function Put(rows: seq<Row>, namespace: string, status: Status, fasAccount: Option<string>): seq<Row> {
    var at := FindRow(rows, namespace);
    if at.None? then rows + [Row(namespace, status, if Given(fasAccount) then fasAccount else None)]
    else rows[at.value := Row(namespace, status, if Given(fasAccount) then fasAccount else rows[at.value].fasAccount)]
  }

  /** The entry has the status, and no other entry changes. */
  lemma {:induction false} PutSetsOneStatus(rows: seq<Row>, namespace: string, status: Status, fasAccount: Option<string>, other: string)
    ensures StatusOf(Put(rows, namespace, status, fasAccount), other) ==
            if other == namespace then Some(status) else StatusOf(rows, other)
  {
    hide Given;
    var after := Put(rows, namespace, status, fasAccount);
    if rows == [] {
      assert after[1..] == [];
    } else if rows[0].namespace == namespace {
      assert after[1..] == rows[1..];
    } else {
      PutSetsOneStatus(rows[1..], namespace, status, fasAccount, other);
      PutFurtherDown(rows, namespace, status, fasAccount);
      hide Put;
    }
  }

  lemma PutFurtherDown(rows: seq<Row>, namespace: string, status: Status, fasAccount: Option<string>)
    requires rows != [] && rows[0].namespace != namespace
    ensures Put(rows, namespace, status, fasAccount) == [rows[0]] + Put(rows[1..], namespace, status, fasAccount)
  {
  }

  /** One row for each namespace: what add_namespace keeps when it runs alone. */
  ghost predicate Unique(rows: seq<Row>) {
    forall i, j | 0 <= i < j < |rows| :: rows[i].namespace != rows[j].namespace
  }

  lemma {:induction false} PutKeepsUnique(rows: seq<Row>, namespace: string, status: Status, fasAccount: Option<string>)
    requires Unique(rows)
    ensures Unique(Put(rows, namespace, status, fasAccount))
  {
  }

  /** Then it does not matter which row the query returns first. */
  lemma {:induction false} OrderOfRowsIsIrrelevant(rows: seq<Row>, shuffled: seq<Row>, namespace: string)
    requires Unique(rows) && Unique(shuffled) && forall row :: row in rows <==> row in shuffled
    ensures StatusOf(rows, namespace) == StatusOf(shuffled, namespace)
  {
    var at, other := FindRow(rows, namespace), FindRow(shuffled, namespace);
    if at.Some? {
      assert rows[at.value] in shuffled;
    }
    if other.Some? {
      assert shuffled[other.value] in rows;
    }
  }

  // ---- The walk ----

  /** `q` is the path, or the part of it before some slash. */
  ghost predicate Covers(q: string, path: string) {
    q == path || (|q| < |path| && path[..|q|] == q && path[|q|] == '/')
  }

  /** The parent path; None when rsplit finds no slash and returns a single element. */
  function Parent(path: string): Option<string> {
    var cut := CutLast(path, '/');
    if cut.None? then None else Some(cut.value.0)
  }

  /** The walk visits the path and all that covers it, and nothing else. */
  lemma {:induction false} ParentCoversTheRest(path: string, q: string)
    ensures Covers(q, path) <==> q == path || (Parent(path).Some? && Covers(q, Parent(path).value))
  {
  }

  // ---- What the two walks look for ----

  ghost predicate AnyDenied(rows: seq<Row>, path: string) {
    exists q :: Covers(q, path) && StatusOf(rows, q) == Some(Denied)
  }

  /** `q` is approved and no more specific entry is denied. */
  ghost predicate Wins(rows: seq<Row>, path: string, q: string) {
    && Covers(q, path) && StatusOf(rows, q).Some? && Approved(StatusOf(rows, q).value)
    && forall p :: Covers(p, path) && |p| > |q| ==> StatusOf(rows, p) != Some(Denied)
  }

  /** The most specific entry that is not waiting is an approval. */
  ghost predicate Decided(rows: seq<Row>, path: string) {
    exists q :: Wins(rows, path, q)
  }

  ghost predicate AnyApproved(rows: seq<Row>, path: string) {
    exists q :: Covers(q, path) && StatusOf(rows, q).Some? && Approved(StatusOf(rows, q).value)
  }

  /** Nothing on the way up is denied and something is approved. */
  ghost predicate Passes(rows: seq<Row>, path: string) {
    !AnyDenied(rows, path) && AnyApproved(rows, path)
  }

  lemma DeniedStep(rows: seq<Row>, path: string)
    ensures AnyDenied(rows, path) <==>
            StatusOf(rows, path) == Some(Denied) || (Parent(path).Some? && AnyDenied(rows, Parent(path).value))
  {
  }

  lemma PathDecides(rows: seq<Row>, path: string)
    requires StatusOf(rows, path).Some? && StatusOf(rows, path) != Some(Waiting)
    ensures Decided(rows, path) <==> Approved(StatusOf(rows, path).value)
  {
    if Approved(StatusOf(rows, path).value) {
      assert Wins(rows, path, path);
    } else {
      forall q ensures !Wins(rows, path, q) {
        assert Covers(path, path) && StatusOf(rows, path) == Some(Denied);
      }
    }
  }

  lemma ParentDecides(rows: seq<Row>, path: string, q: string)
    requires StatusOf(rows, path).None? || StatusOf(rows, path) == Some(Waiting)
    ensures Wins(rows, path, q) <==> Parent(path).Some? && Wins(rows, Parent(path).value, q)
  {
    forall p ensures Covers(p, path) <==> p == path || (Parent(path).Some? && Covers(p, Parent(path).value)) {
      ParentCoversTheRest(path, p);
    }
  }

  lemma DecidedStep(rows: seq<Row>, path: string)
    ensures Decided(rows, path) <==>
            if StatusOf(rows, path).Some? && StatusOf(rows, path) != Some(Waiting) then Approved(StatusOf(rows, path).value)
            else Parent(path).Some? && Decided(rows, Parent(path).value)
  {
    if StatusOf(rows, path).Some? && StatusOf(rows, path) != Some(Waiting) {
      PathDecides(rows, path);
    } else {
      forall q ensures Wins(rows, path, q) <==> Parent(path).Some? && Wins(rows, Parent(path).value, q) {
        ParentDecides(rows, path, q);
      }
    }
  }

  /** url.split("://")[1] + ".git" */
  function StripProtocolAndAddGit(url: string): Option<string> {
    var parts := Split(url, "://");
    if |parts| < 2 then None else Some(parts[1] + ".git")
  }

  class AllowlistTable {
    var rows: seq<Row>

    method AddNamespace(namespace: string, status: Status, fasAccount: Option<string>)
      modifies this
      ensures rows == Put(old(rows), namespace, status, fasAccount)
      ensures Unique(old(rows)) ==> Unique(rows)
    {
      if Unique(rows) {
        PutKeepsUnique(rows, namespace, status, fasAccount);
      }
      var at := FindRow(rows, namespace);
      if at.None? {
        rows := rows + [Row(namespace, status, None)];
        at := Some(|rows| - 1);
      }
      rows := rows[at.value := rows[at.value].(status := status)];
      if Given(fasAccount) {
        rows := rows[at.value := rows[at.value].(fasAccount := fasAccount)];
      }
    }

    method ApproveNamespace(namespace: string)
      modifies this
      ensures forall q :: StatusOf(rows, q) == if q == namespace then Some(ApprovedManually) else StatusOf(old(rows), q)
    {
      AddNamespace(namespace, ApprovedManually, None);
      forall q ensures StatusOf(rows, q) == if q == namespace then Some(ApprovedManually) else StatusOf(old(rows), q) {
        PutSetsOneStatus(old(rows), namespace, ApprovedManually, None, q);
      }
    }

    method DenyNamespace(namespace: string)
      modifies this
      ensures forall q :: StatusOf(rows, q) == if q == namespace then Some(Denied) else StatusOf(old(rows), q)
    {
      AddNamespace(namespace, Denied, None);
      forall q ensures StatusOf(rows, q) == if q == namespace then Some(Denied) else StatusOf(old(rows), q) {
        PutSetsOneStatus(old(rows), namespace, Denied, None, q);
      }
    }

    method IsNamespaceOrParentApproved(namespace: Option<string>) returns (approved: bool)
      ensures approved <==> Given(namespace) && Decided(rows, namespace.value)
    {
      if namespace.None? || namespace.value == "" {
        return false;
      }
      var path := namespace;
      while path.Some?
        invariant Decided(rows, namespace.value) <==> path.Some? && Decided(rows, path.value)
        decreases if path.Some? then |path.value| + 1 else 0
      {
        DecidedStep(rows, path.value);
        var status := StatusOf(rows, path.value);
        if status.Some? && status.value != Waiting {
          return Approved(status.value);
        }
        path := Parent(path.value);
      }
      return false;
    }

    method IsNamespaceOrParentDenied(namespace: Option<string>) returns (denied: bool)
      ensures denied <==> Given(namespace) && AnyDenied(rows, namespace.value)
    {
      if namespace.None? || namespace.value == "" {
        return false;
      }
      var path := namespace;
      while path.Some?
        invariant AnyDenied(rows, namespace.value) <==> path.Some? && AnyDenied(rows, path.value)
        decreases if path.Some? then |path.value| + 1 else 0
      {
        DeniedStep(rows, path.value);
        if StatusOf(rows, path.value) == Some(Denied) {
          return true;
        }
        path := Parent(path.value);
      }
      return false;
    }

    /** Releases and pushes: allowed when nothing on the way up is denied and something is approved. */
    method CheckReleasePushEvent(projectUrl: Option<string>) returns (verdict: Verdict)
      ensures verdict.NoNamespace? <==> !Given(projectUrl)
      ensures verdict.NoProtocol? <==> Given(projectUrl) && StripProtocolAndAddGit(projectUrl.value).None?
      ensures verdict.Allowed? <==>
              && Given(projectUrl) && StripProtocolAndAddGit(projectUrl.value).Some?
              && Passes(rows, StripProtocolAndAddGit(projectUrl.value).value)
    {
      if projectUrl.None? || projectUrl.value == "" {
        return NoNamespace;
      }
      var path := StripProtocolAndAddGit(projectUrl.value);
      if path.None? {
        return NoProtocol;
      }
      NoDenialLeavesAnyApproval(rows, path.value);
      var denied := IsNamespaceOrParentDenied(path);
      if denied {
        return Refused;
      }
      var approved := IsNamespaceOrParentApproved(path);
      return if approved then Allowed else Refused;
    }

    /**
     Pull requests and comments: the actor must not be denied under `host`/`actor`, and `mayTrigger`
     says that the forge lets the actor merge (or, for pull requests, that the actor is the author).
     */
    method CheckActorEvent(projectUrl: Option<string>, host: string, actor: string, mayTrigger: bool) returns (verdict: Verdict)
      ensures verdict.NoNamespace? <==> actor == ""
      ensures verdict.NoProtocol? <==> actor != "" && Given(projectUrl) && StripProtocolAndAddGit(projectUrl.value).None?
      ensures verdict.Allowed? <==>
              && actor != "" && Given(projectUrl) && StripProtocolAndAddGit(projectUrl.value).Some?
              && StatusOf(rows, host + "/" + actor) != Some(Denied) && mayTrigger
              && Passes(rows, StripProtocolAndAddGit(projectUrl.value).value)
    {
      if actor == "" {
        return NoNamespace;
      }
      var path: Option<string> := None;
      if projectUrl.Some? && projectUrl.value != "" {
        path := StripProtocolAndAddGit(projectUrl.value);
        if path.None? {
          return NoProtocol;
        }
        NoDenialLeavesAnyApproval(rows, path.value);
      }
      if StatusOf(rows, host + "/" + actor) == Some(Denied) {
        return Refused;
      }
      var denied := IsNamespaceOrParentDenied(path);
      if denied {
        return Refused;
      }
      var approved := IsNamespaceOrParentApproved(path);
      return if approved && mayTrigger then Allowed else Refused;
    }
  }

  // ---- The rules over the rows ----

  /** The status of a namespace is that of its first row. */
  lemma {:induction false} StatusIsThatOfTheFirstRow(rows: seq<Row>, namespace: string)
    ensures StatusOf(rows, namespace) == None <==> forall i | 0 <= i < |rows| :: rows[i].namespace != namespace
    ensures forall i | 0 <= i < |rows| && rows[i].namespace == namespace && (forall j | 0 <= j < i :: rows[j].namespace != namespace) ::
              StatusOf(rows, namespace) == Some(rows[i].status)
  {
    if rows != [] && rows[0].namespace != namespace {
      StatusIsThatOfTheFirstRow(rows[1..], namespace);
      forall i | 0 <= i < |rows| && rows[i].namespace == namespace && (forall j | 0 <= j < i :: rows[j].namespace != namespace)
        ensures StatusOf(rows, namespace) == Some(rows[i].status)
      {
        assert rows[1..][i - 1] == rows[i] && forall j | 0 <= j < i - 1 :: rows[1..][j] == rows[j + 1];
      }
      assert forall i | 0 < i < |rows| :: rows[i] == rows[1..][i - 1];
    }
  }

  lemma {:induction false} FirstRowOf(rows: seq<Row>, namespace: string) returns (i: nat)
    requires StatusOf(rows, namespace).Some?
    ensures i < |rows| && rows[i].namespace == namespace && forall j | 0 <= j < i :: rows[j].namespace != namespace
    ensures StatusOf(rows, namespace) == Some(rows[i].status)
  {
    StatusIsThatOfTheFirstRow(rows, namespace);
    i := 0;
    while rows[i].namespace != namespace
      invariant i < |rows| && forall j | 0 <= j < i :: rows[j].namespace != namespace
      invariant exists k :: i <= k < |rows| && rows[k].namespace == namespace
      decreases |rows| - i
    {
      i := i + 1;
    }
  }

  /**
  A path passes exactly when no namespace on the way up is denied, and one is approved, by hand or
  automatically: the path itself, or a part of it that ends before a slash.  The first row of each
  namespace counts.
  */
  lemma {:induction false} PassesExactlyWhen(rows: seq<Row>, path: string)
    ensures Passes(rows, path) <==>
            && (forall i | 0 <= i < |rows| && (forall j | 0 <= j < i :: rows[j].namespace != rows[i].namespace)
                           && (rows[i].namespace == path || rows[i].namespace + "/" <= path) ::
                  rows[i].status != Denied)
            && (exists i | 0 <= i < |rows| && (forall j | 0 <= j < i :: rows[j].namespace != rows[i].namespace)
                           && (rows[i].namespace == path || rows[i].namespace + "/" <= path) ::
                  rows[i].status == ApprovedAutomatically || rows[i].status == ApprovedManually)
  {
    forall q ensures Covers(q, path) <==> q == path || q + "/" <= path {
      CoversIsAPrefix(q, path);
    }
    forall i | 0 <= i < |rows| && (forall j | 0 <= j < i :: rows[j].namespace != rows[i].namespace)
      ensures StatusOf(rows, rows[i].namespace) == Some(rows[i].status)
    {
      StatusIsThatOfTheFirstRow(rows, rows[i].namespace);
    }
    hide StatusOf, Covers;
    if q :| Covers(q, path) && StatusOf(rows, q) == Some(Denied) {
      var i := FirstRowOf(rows, q);
    }
    if q :| Covers(q, path) && StatusOf(rows, q).Some? && Approved(StatusOf(rows, q).value) {
      var i := FirstRowOf(rows, q);
    }
  }

  lemma CoversIsAPrefix(q: string, path: string)
    ensures Covers(q, path) <==> q == path || q + "/" <= path
  {
    if |q| < |path| && path[..|q|] == q && path[|q|] == '/' {
      assert path[..|q| + 1] == q + "/";
    }
    if q + "/" <= path {
      assert path[..|q| + 1] == q + "/" && path[..|q|] == (q + "/")[..|q|] && path[|q|] == (q + "/")[|q|];
    }
  }

  /** `q` wins exactly when its first row approves and no first row of a longer namespace on the way denies. */
  lemma {:induction false} WinsExactlyWhen(rows: seq<Row>, path: string, q: string, i: nat)
    requires i < |rows| && rows[i].namespace == q && forall j | 0 <= j < i :: rows[j].namespace != q
    ensures Wins(rows, path, q) <==>
            && (q == path || q + "/" <= path) && (rows[i].status == ApprovedAutomatically || rows[i].status == ApprovedManually)
            && forall k | 0 <= k < |rows| && (forall j | 0 <= j < k :: rows[j].namespace != rows[k].namespace)
                          && (rows[k].namespace == path || rows[k].namespace + "/" <= path)
                          && |rows[k].namespace| > |q| :: rows[k].status != Denied
  {
    StatusIsThatOfTheFirstRow(rows, q);
    CoversIsAPrefix(q, path);
    forall k | 0 <= k < |rows| && (forall j | 0 <= j < k :: rows[j].namespace != rows[k].namespace)
      ensures StatusOf(rows, rows[k].namespace) == Some(rows[k].status)
      ensures Covers(rows[k].namespace, path) <==> rows[k].namespace == path || rows[k].namespace + "/" <= path
    {
      StatusIsThatOfTheFirstRow(rows, rows[k].namespace);
      CoversIsAPrefix(rows[k].namespace, path);
    }
    hide StatusOf, Covers;
    if p :| Covers(p, path) && |p| > |q| && StatusOf(rows, p) == Some(Denied) {
      var k := FirstRowOf(rows, p);
    }
  }

  /** The approval walk alone says yes exactly when an approved namespace on the way has no denied one further down. */
  lemma {:induction false} DecidedExactlyWhen(rows: seq<Row>, path: string)
    ensures Decided(rows, path) <==>
            exists i | 0 <= i < |rows| && (forall j | 0 <= j < i :: rows[j].namespace != rows[i].namespace) ::
              && (rows[i].namespace == path || rows[i].namespace + "/" <= path)
              && (rows[i].status == ApprovedAutomatically || rows[i].status == ApprovedManually)
              && forall k | 0 <= k < |rows| && (forall j | 0 <= j < k :: rows[j].namespace != rows[k].namespace)
                            && (rows[k].namespace == path || rows[k].namespace + "/" <= path)
                            && |rows[k].namespace| > |rows[i].namespace| :: rows[k].status != Denied
  {
    forall i | 0 <= i < |rows| && (forall j | 0 <= j < i :: rows[j].namespace != rows[i].namespace)
      ensures Wins(rows, path, rows[i].namespace) <==>
              && (rows[i].namespace == path || rows[i].namespace + "/" <= path)
              && (rows[i].status == ApprovedAutomatically || rows[i].status == ApprovedManually)
              && forall k | 0 <= k < |rows| && (forall j | 0 <= j < k :: rows[j].namespace != rows[k].namespace)
                            && (rows[k].namespace == path || rows[k].namespace + "/" <= path)
                            && |rows[k].namespace| > |rows[i].namespace| :: rows[k].status != Denied
    {
      WinsExactlyWhen(rows, path, rows[i].namespace, i);
    }
    forall q | Wins(rows, path, q)
      ensures exists i | 0 <= i < |rows| && (forall j | 0 <= j < i :: rows[j].namespace != rows[i].namespace) :: rows[i].namespace == q
    {
      var i := FirstRowOf(rows, q);
    }
    hide Wins;
  }

  /** The path of a URL is what stands behind its first "://", up to the next one, with ".git" added. */
  lemma {:induction false} PathOfAUrl(protocol: string, rest: string)
    requires Find(protocol + "://" + rest, "://") == Some(|protocol|)
    ensures StripProtocolAndAddGit(protocol + "://" + rest) ==
            Some((if Find(rest, "://") == None then rest else rest[..Find(rest, "://").value]) + ".git")
  {
    var url := protocol + "://" + rest;
    assert url[..|protocol|] == protocol && url[|protocol| + |"://"|..] == rest;
    assert Split(url, "://") == [protocol] + Split(rest, "://");
  }

  /** A URL without "://" has none. */
  lemma {:induction false} UrlWithoutProtocol(url: string)
    ensures StripProtocolAndAddGit(url) == None <==> Unsplittable(url, "://")
  {
    if Find(url, "://") == None {
      forall i: nat ensures !OccursAt(url, "://", i) {
        if OccursAt(url, "://", i) {
          FindFindsTheFirst(url, "://", i);
        }
      }
    } else {
      assert OccursAt(url, "://", Find(url, "://").value);
    }
  }

  /** add_namespace over the rows: the first row of the namespace changes, or a new one comes last. */
  lemma {:induction false} PutExactly(rows: seq<Row>, namespace: string, status: Status, fasAccount: Option<string>)
    ensures var after := Put(rows, namespace, status, fasAccount);
            && (forall i | 0 <= i < |rows| :: i < |after| &&
                  if rows[i].namespace == namespace && (forall j | 0 <= j < i :: rows[j].namespace != namespace)
                  then after[i] == Row(namespace, status,
                                       if fasAccount.Some? && fasAccount.value != "" then fasAccount else rows[i].fasAccount)
                  else after[i] == rows[i])
            && if forall i | 0 <= i < |rows| :: rows[i].namespace != namespace
               then |after| == |rows| + 1
                    && after[|rows|] == Row(namespace, status, if fasAccount.Some? && fasAccount.value != "" then fasAccount else None)
               else |after| == |rows|
  {
    var at := FindRow(rows, namespace);
    if at.Some? {
      FoundRowIsTheFirst(rows, namespace);
    }
  }

  lemma {:induction false} FoundRowIsTheFirst(rows: seq<Row>, namespace: string)
    ensures FindRow(rows, namespace).Some? ==>
              forall j | 0 <= j < FindRow(rows, namespace).value :: rows[j].namespace != namespace
  {
    if rows != [] && rows[0].namespace != namespace {
      FoundRowIsTheFirst(rows[1..], namespace);
      assert forall j | 0 < j < |rows| :: rows[j] == rows[1..][j - 1];
    }
  }

  // ---- What the rules mean for the table ----

  /** When nothing is denied, the most specific approval wins as well as any other. */
  lemma NoDenialLeavesAnyApproval(rows: seq<Row>, path: string)
    ensures !AnyDenied(rows, path) ==> (Decided(rows, path) <==> AnyApproved(rows, path))
    ensures Decided(rows, path) ==> AnyApproved(rows, path)
  {
    if !AnyDenied(rows, path) && AnyApproved(rows, path) {
      var q :| Covers(q, path) && StatusOf(rows, q).Some? && Approved(StatusOf(rows, q).value);
      assert Wins(rows, path, q);
    }
  }

  /** Denying a namespace refuses everything below it, whatever is approved there. */
  lemma {:induction false} DenialCoversTheSubtree(rows: seq<Row>, namespace: string, fasAccount: Option<string>, path: string)
    requires Covers(namespace, path)
    ensures !Passes(Put(rows, namespace, Denied, fasAccount), path)
  {
    PutSetsOneStatus(rows, namespace, Denied, fasAccount, namespace);
  }

  /** Approving a namespace lets everything below it pass exactly when no other entry on the way is denied. */
  lemma {:induction false} ApprovalCoversTheSubtree(rows: seq<Row>, namespace: string, fasAccount: Option<string>, path: string)
    requires Covers(namespace, path)
    ensures Passes(Put(rows, namespace, ApprovedManually, fasAccount), path) <==>
            forall q :: Covers(q, path) && q != namespace ==> StatusOf(rows, q) != Some(Denied)
  {
    var after := Put(rows, namespace, ApprovedManually, fasAccount);
    forall q ensures StatusOf(after, q) == if q == namespace then Some(ApprovedManually) else StatusOf(rows, q) {
      PutSetsOneStatus(rows, namespace, ApprovedManually, fasAccount, q);
    }
    if q :| Covers(q, path) && q != namespace && StatusOf(rows, q) == Some(Denied) {
      assert StatusOf(after, q) == Some(Denied);
    }
    assert StatusOf(after, namespace) == Some(ApprovedManually);
  }

  /** An entry has no effect on paths outside its subtree. */
  lemma {:induction false} EntriesOnlyReachTheirSubtree(
    rows: seq<Row>, namespace: string, status: Status, fasAccount: Option<string>, path: string)
    requires !Covers(namespace, path)
    ensures Passes(Put(rows, namespace, status, fasAccount), path) == Passes(rows, path)
    ensures Decided(Put(rows, namespace, status, fasAccount), path) == Decided(rows, path)
  {
    var after := Put(rows, namespace, status, fasAccount);
    forall q | Covers(q, path) ensures StatusOf(after, q) == StatusOf(rows, q) {
      PutSetsOneStatus(rows, namespace, status, fasAccount, q);
    }
    assert forall q :: Wins(after, path, q) <==> Wins(rows, path, q);
  }

  /** Below a denied namespace the approved walk alone can still say yes: it stops at the first decision. */
  lemma {:induction false} ApprovalCanHideADenial()
    ensures var rows := [Row("a", Denied, None), Row("a/b", ApprovedManually, None)];
            Decided(rows, "a/b") && AnyDenied(rows, "a/b") && !Passes(rows, "a/b")
  {
    var rows := [Row("a", Denied, None), Row("a/b", ApprovedManually, None)];
    assert Covers("a", "a/b") && Covers("a/b", "a/b");
    assert StatusOf(rows, "a") == Some(Denied);
    assert rows[1..] == [rows[1]];
    assert FindRow(rows[1..], "a/b") == Some(0);
    assert StatusOf(rows, "a/b") == Some(ApprovedManually);
    assert Wins(rows, "a/b", "a/b");
  }
}
