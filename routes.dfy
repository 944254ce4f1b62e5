/**
 * The API resources the commands address, and the paths the command layer
 * writes for them with template strings. `Segments`, `Join`, `Split` and
 * `Parse` give an independent, structured reading of those paths, used to
 * prove that a path names exactly one resource when its ids contain no '/'.
 */
module Routes {
  import opened Base

  datatype Route =
    | AuthInit
    | AuthJwt
    | AuthToken
    | Users
    | Me
    | Accounts
    | Account(id: string)
    | AccountTransactions(account: string)
    | RecipientTransfers(account: string, recipient: string)
    | Transactions
    | Transaction(id: string)
    | Transfers
    | Transfer(id: string)
    | Connections
    | Connection(id: string)
    | Banks
    | Bank(id: string)

  /** The path segments of a route, one per '/'-separated component. */
  function Segments(rt: Route): seq<string>
  {
    match rt
    case AuthInit => ["auth", "init"]
    case AuthJwt => ["auth", "jwt"]
    case AuthToken => ["auth", "token"]
    case Users => ["users"]
    case Me => ["users", "me"]
    case Accounts => ["users", "me", "accounts"]
    case Account(id) => ["users", "me", "accounts", id]
    case AccountTransactions(account) => ["users", "me", "accounts", account, "transactions"]
    case RecipientTransfers(account, recipient) =>
      ["users", "me", "accounts", account, "recipients", recipient, "transfers"]
    case Transactions => ["users", "me", "transactions"]
    case Transaction(id) => ["users", "me", "transactions", id]
    case Transfers => ["users", "me", "transfers"]
    case Transfer(id) => ["users", "me", "transfers", id]
    case Connections => ["users", "me", "connections"]
    case Connection(id) => ["users", "me", "connections", id]
    case Banks => ["banks"]
    case Bank(id) => ["banks", id]
  }

  /** An id that stays one path segment once interpolated. */
  predicate SafeSegment(id: string)
  {
    '/' !in id
  }

  predicate SafeIds(rt: Route)
  {
    match rt
    case Account(id) => SafeSegment(id)
    case AccountTransactions(account) => SafeSegment(account)
    case RecipientTransfers(account, recipient) => SafeSegment(account) && SafeSegment(recipient)
    case Transaction(id) => SafeSegment(id)
    case Transfer(id) => SafeSegment(id)
    case Connection(id) => SafeSegment(id)
    case Bank(id) => SafeSegment(id)
    case _ => true
  }

  /** "/" + s1 + "/" + s2 + ... */
  function Join(segs: seq<string>): string
  {
    if segs == [] then "" else "/" + segs[0] + Join(segs[1..])
  }

  /**
   * The path the command layer writes for a route, e.g. `/users/me/accounts/${id}`
   * for `Account(id)`: the segments joined, ids interpolated as they are, without escaping.
   */
  function Path(rt: Route): (p: string)
    ensures |p| > 1 && p[0] == '/'
  {
    Join(Segments(rt))
  }

  /** The length of the leading run of non-'/' characters. */
  function SegmentEnd(s: string): (n: nat)
    ensures n <= |s|
  {
    if s == [] || s[0] == '/' then 0 else 1 + SegmentEnd(s[1..])
  }

  /** Cuts an absolute path at every '/'; `None` for a path that does not start with '/'. */
  function Split(p: string): Option<seq<string>>
    decreases |p|
  {
    if p == [] then Some([])
    else if p[0] != '/' then None
    else
      var n := SegmentEnd(p[1..]);
      match Split(p[1 + n..])
      case None => None
      case Some(rest) => Some([p[1..1 + n]] + rest)
  }

  /** The resource a list of segments names, if any. */
  function FromSegments(s: seq<string>): Option<Route>
  {
    if |s| == 0 then None
    else if s[0] == "auth" then
      if |s| != 2 then None
      else if s[1] == "init" then Some(AuthInit)
      else if s[1] == "jwt" then Some(AuthJwt)
      else if s[1] == "token" then Some(AuthToken)
      else None
    else if s[0] == "banks" then
      if |s| == 1 then Some(Banks)
      else if |s| == 2 then Some(Bank(s[1]))
      else None
    else if s[0] != "users" then None
    else if |s| == 1 then Some(Users)
    else if s[1] != "me" then None
    else if |s| == 2 then Some(Me)
    else FromMeSegments(s[2], s[3..])
  }

  /** The resource `/users/me/<collection>/<rest...>` names, if any. */
  function FromMeSegments(collection: string, rest: seq<string>): Option<Route>
  {
    if collection == "accounts" then
      if |rest| == 0 then Some(Accounts)
      else if |rest| == 1 then Some(Account(rest[0]))
      else if |rest| == 2 && rest[1] == "transactions" then Some(AccountTransactions(rest[0]))
      else if |rest| == 4 && rest[1] == "recipients" && rest[3] == "transfers" then
        Some(RecipientTransfers(rest[0], rest[2]))
      else None
    else if |rest| > 1 then None
    else if collection == "transactions" then
      if |rest| == 0 then Some(Transactions) else Some(Transaction(rest[0]))
    else if collection == "transfers" then
      if |rest| == 0 then Some(Transfers) else Some(Transfer(rest[0]))
    else if collection == "connections" then
      if |rest| == 0 then Some(Connections) else Some(Connection(rest[0]))
    else None
  }

  /** The resource a path names, if any. */
  function Parse(p: string): Option<Route>
  {
    match Split(p)
    case None => None
    case Some(segs) => FromSegments(segs)
  }

  lemma JoinCons(s: string, rest: seq<string>)
    ensures Join([s] + rest) == "/" + s + Join(rest)
  {
    assert ([s] + rest)[1..] == rest;
  }

  lemma {:induction false} JoinAppend(xs: seq<string>, ys: seq<string>)
    ensures Join(xs + ys) == Join(xs) + Join(ys)
  {
    if xs == [] {
      assert xs + ys == ys;
    } else {
      assert (xs + ys)[0] == xs[0];
      assert (xs + ys)[1..] == xs[1..] + ys;
      JoinAppend(xs[1..], ys);
    }
  }

  lemma {:induction false} SegmentEndAt(seg: string, rest: string)
    requires SafeSegment(seg)
    requires rest == [] || rest[0] == '/'
    ensures SegmentEnd(seg + rest) == |seg|
  {
    if seg != [] {
      assert (seg + rest)[0] == seg[0];
      assert (seg + rest)[1..] == seg[1..] + rest;
      SegmentEndAt(seg[1..], rest);
    } else {
      assert seg + rest == rest;
    }
  }

  /** Splitting undoes joining, as long as no segment contains '/'. */
  lemma {:induction false} SplitJoin(segs: seq<string>)
    requires forall i :: 0 <= i < |segs| ==> SafeSegment(segs[i])
    ensures Split(Join(segs)) == Some(segs)
  {
    if segs != [] {
      var first, rest := segs[0], Join(segs[1..]);
      var p := Join(segs);
      assert p == "/" + first + rest;
      assert p[1..] == first + rest;
      assert rest == [] || rest[0] == '/';
      SegmentEndAt(first, rest);
      assert p[1..1 + |first|] == first;
      assert p[1 + |first|..] == rest;
      SplitJoin(segs[1..]);
      assert [first] + segs[1..] == segs;
    }
  }

  lemma FromSegmentsOfSegments(rt: Route)
    ensures FromSegments(Segments(rt)) == Some(rt)
  {
  }

  lemma SafeIdsMakeSafeSegments(rt: Route)
    requires SafeIds(rt)
    ensures forall i :: 0 <= i < |Segments(rt)| ==> SafeSegment(Segments(rt)[i])
  {
  }

  /** A path written from a route with slash-free ids names that route and no other. */
  lemma ParsePath(rt: Route)
    requires SafeIds(rt)
    ensures Parse(Path(rt)) == Some(rt)
  {
    SafeIdsMakeSafeSegments(rt);
    FromSegmentsOfSegments(rt);
    SplitJoin(Segments(rt));
  }

  /** Two routes with slash-free ids never share a path. */
  lemma PathInjective(r1: Route, r2: Route)
    requires SafeIds(r1) && SafeIds(r2)
    requires Path(r1) == Path(r2)
    ensures r1 == r2
  {
    ParsePath(r1);
    ParsePath(r2);
  }

  lemma JoinOne(a: string)
    ensures Join([a]) == "/" + a
  {
    JoinCons(a, []);
    assert [a] == [a] + [];
  }

  /** The literal text of every route's path, as the command layer writes it. */
  lemma PathTemplates(id: string, account: string, recipient: string)
    ensures Path(AuthInit) == "/auth/init"
    ensures Path(AuthJwt) == "/auth/jwt"
    ensures Path(AuthToken) == "/auth/token"
    ensures Path(Users) == "/users"
    ensures Path(Me) == "/users/me"
    ensures Path(Accounts) == "/users/me/accounts"
    ensures Path(Account(id)) == "/users/me/accounts/" + id
    ensures Path(AccountTransactions(account)) == "/users/me/accounts/" + account + "/transactions"
    ensures Path(RecipientTransfers(account, recipient))
      == "/users/me/accounts/" + account + "/recipients/" + recipient + "/transfers"
    ensures Path(Transactions) == "/users/me/transactions"
    ensures Path(Transaction(id)) == "/users/me/transactions/" + id
    ensures Path(Transfers) == "/users/me/transfers"
    ensures Path(Transfer(id)) == "/users/me/transfers/" + id
    ensures Path(Connections) == "/users/me/connections"
    ensures Path(Connection(id)) == "/users/me/connections/" + id
    ensures Path(Banks) == "/banks"
    ensures Path(Bank(id)) == "/banks/" + id
  {
    AuthPathTemplates();
    UserPathTemplates();
    AccountPathTemplates(id);
    AccountTransactionsPathTemplate(account);
    RecipientTransfersPathTemplate(account, recipient);
    TransactionPathTemplates(id);
    TransferPathTemplates(id);
    ConnectionPathTemplates(id);
    BankPathTemplates(id);
  }

  lemma JoinSnoc(segs: seq<string>, last: string)
    ensures Join(segs + [last]) == Join(segs) + "/" + last
  {
    JoinAppend(segs, [last]);
    JoinOne(last);
  }

  lemma AuthPathTemplates()
    ensures Path(AuthInit) == "/auth/init"
    ensures Path(AuthJwt) == "/auth/jwt"
    ensures Path(AuthToken) == "/auth/token"
  {
  }

  lemma UserPathTemplates()
    ensures Path(Users) == "/users"
    ensures Path(Me) == "/users/me"
  {
  }

  lemma BankPathTemplates(id: string)
    ensures Path(Banks) == "/banks"
    ensures Path(Bank(id)) == "/banks/" + id
  {
    JoinSnoc(["banks"], id);
    assert Segments(Bank(id)) == ["banks"] + [id];
  }

  /** `/users/me/<collection>` and `/users/me/<collection>/<id>`. */
  lemma CollectionPathTemplates(collection: string, id: string)
    ensures Join(["users", "me", collection]) == "/users/me/" + collection
    ensures Join(["users", "me", collection, id]) == "/users/me/" + collection + "/" + id
  {
    JoinOne(collection);
    JoinCons("me", [collection]);
    JoinCons("users", ["me", collection]);
    JoinSnoc(["users", "me", collection], id);
    assert ["users", "me", collection] + [id] == ["users", "me", collection, id];
  }

  lemma TransactionPathTemplates(id: string)
    ensures Path(Transactions) == "/users/me/transactions"
    ensures Path(Transaction(id)) == "/users/me/transactions/" + id
  {
    CollectionPathTemplates("transactions", id);
  }

  lemma TransferPathTemplates(id: string)
    ensures Path(Transfers) == "/users/me/transfers"
    ensures Path(Transfer(id)) == "/users/me/transfers/" + id
  {
    CollectionPathTemplates("transfers", id);
  }

  lemma ConnectionPathTemplates(id: string)
    ensures Path(Connections) == "/users/me/connections"
    ensures Path(Connection(id)) == "/users/me/connections/" + id
  {
    CollectionPathTemplates("connections", id);
  }

  lemma AccountPathTemplates(id: string)
    ensures Path(Accounts) == "/users/me/accounts"
    ensures Path(Account(id)) == "/users/me/accounts/" + id
  {
    CollectionPathTemplates("accounts", id);
  }

  lemma AccountTransactionsPathTemplate(account: string)
    ensures Path(AccountTransactions(account)) == "/users/me/accounts/" + account + "/transactions"
  {
    var segs := ["users", "me", "accounts", account];
    CollectionPathTemplates("accounts", account);
    JoinSnoc(segs, "transactions");
    assert Segments(AccountTransactions(account)) == segs + ["transactions"];
  }

  lemma RecipientTransfersPathTemplate(account: string, recipient: string)
    ensures Path(RecipientTransfers(account, recipient))
      == "/users/me/accounts/" + account + "/recipients/" + recipient + "/transfers"
  {
    var head, tail := ["users", "me", "accounts", account], ["recipients", recipient, "transfers"];
    assert Segments(RecipientTransfers(account, recipient)) == head + tail;
    CollectionPathTemplates("accounts", account);
    JoinAppend(head, tail);
    RecipientsTail(recipient);
  }

  lemma RecipientsTail(recipient: string)
    ensures Join(["recipients", recipient, "transfers"]) == "/recipients/" + recipient + "/transfers"
  {
    JoinOne("transfers");
    JoinCons(recipient, ["transfers"]);
    JoinCons("recipients", [recipient, "transfers"]);
  }

  /** Joining a segment that contains a '/' gives the same text as joining its two halves. */
  lemma JoinSlashed(prefix: seq<string>, x: string, y: string)
    ensures Join(prefix + [x + "/" + y]) == Join(prefix + [x, y])
  {
    JoinSnoc(prefix, x + "/" + y);
    JoinSnoc(prefix, x);
    JoinSnoc(prefix + [x], y);
    assert prefix + [x] + [y] == prefix + [x, y];
  }

  /** Without that condition paths collide: an account id with a '/' reaches another resource. */
  lemma UnescapedIdCollides(account: string)
    ensures Account(account + "/transactions") != AccountTransactions(account)
    ensures Path(Account(account + "/transactions")) == Path(AccountTransactions(account))
  {
    var prefix := ["users", "me", "accounts"];
    assert "/" + "transactions" == "/transactions";
    assert account + "/" + "transactions" == account + "/transactions";
    assert Segments(Account(account + "/transactions")) == prefix + [account + "/" + "transactions"];
    assert Segments(AccountTransactions(account)) == prefix + [account, "transactions"];
    JoinSlashed(prefix, account, "transactions");
  }
}
