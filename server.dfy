/**
 * The Express back end of server/server.js: an in-memory store of users, customers,
 * deals and tasks, a bearer-token gate in front of the CRM routes, and the
 * login/register routes that issue those tokens.  Password hashing (bcrypt) and token
 * signing (JWT) are foreign libraries; they enter as the function values of a
 * `Crypto` record, and the laws the proofs rely on are collected in `Lawful`.
 */
module Server {
  import opened Wrappers
  import opened Text
  import opened Seqs
  import opened Types

  /** `expiresIn: '24h'`, in milliseconds. */
  const TokenLifetime: int := 24 * 60 * 60 * 1000

  /** A stored account; `password` holds the bcrypt hash, never the plaintext. */
  datatype User = User(
    id: string,
    name: string,
    email: string,
    password: string,
    role: string,
    avatar: string,
    createdAt: Timestamp)
  {
    /** `const { password: _, ...userWithoutPassword } = user`. */
    function Public(): PublicUser {
      PublicUser(id, name, email, role, avatar, createdAt)
    }
  }

  /** A user as the routes send it back: every field but the password. */
  datatype PublicUser = PublicUser(
    id: string,
    name: string,
    email: string,
    role: string,
    avatar: string,
    createdAt: Timestamp)

  /** The payload signed into a token. */
  datatype Claims = Claims(id: string, email: string, role: string)

  /** The payload issued for a user: exactly its id, email and role. */
  function ClaimsOf(u: User): Claims {
    Claims(u.id, u.email, u.role)
  }

  /**
   * bcrypt and jsonwebtoken with the server's secret fixed: `hash` hashes a password,
   * `compare(plain, hashed)` checks one, `sign(claims, issuedAt)` issues a 24-hour token
   * and `verify(token, now)` decodes it, or fails.
   */
  datatype Crypto = Crypto(
    hash: string -> string,
    compare: (string, string) -> bool,
    sign: (Claims, Timestamp) -> string,
    verify: (string, Timestamp) -> Option<Claims>)

  /**
   * What the server relies on from the two libraries: a password matches its own
   * hash, a token decodes to its payload until it expires and not afterwards, and a
   * token is a non-empty string without spaces (so it survives the `Bearer` header).
   */
  ghost predicate Lawful(c: Crypto) {
    (forall p :: c.compare(p, c.hash(p)))
    && (forall cl, iat, now :: iat <= now < iat + TokenLifetime ==> c.verify(c.sign(cl, iat), now) == Some(cl))
    && (forall cl, iat, now :: iat + TokenLifetime <= now ==> c.verify(c.sign(cl, iat), now) == None)
    && (forall cl, iat :: c.sign(cl, iat) != [] && ' ' !in c.sign(cl, iat))
  }

  /** The JSON bodies the routes answer with; every status other than 200/201 carries a `Message`. */
  datatype Body =
    | Message(message: string)
    | Session(user: PublicUser, token: string, message: string)
    | Profile(profile: PublicUser)
    | Stats(stats: DashboardStats)
    | CustomerList(customers: seq<Customer>)
    | DealList(deals: seq<Deal>)
    | TaskList(tasks: seq<Task>)
    | CustomerRecord(customer: Customer)
    | DealRecord(deal: Deal)
    | TaskRecord(task: Task)

  datatype Response = Response(status: nat, body: Body)

  /** `!field` in a destructured request body: absent or the empty string. */
  predicate Blank(field: Option<string>) {
    field.None? || field.value == ""
  }

  // ---------------------------------------------------------------------------
  // The authentication middleware
  // ---------------------------------------------------------------------------

  /**
   * `authHeader && authHeader.split(' ')[1]`, kept only when truthy: the second
   * space-separated word of the header, whatever the first word is.
   */
  function BearerToken(header: Option<string>): (r: Option<string>)
    ensures r.Some? <==> header.Some? && |Split(header.value, ' ')| >= 2 && Split(header.value, ' ')[1] != ""
    ensures r.Some? ==> r.value != "" && ' ' !in r.value
  {
    if header.None? then None
    else
      var words := Split(header.value, ' ');
      if |words| >= 2 && words[1] != "" then Some(words[1]) else None
  }

  /** Any first word followed by one space and a space-free token yields that token. */
  lemma BearerTokenOf(scheme: string, token: string)
    requires ' ' !in scheme && ' ' !in token && token != ""
    ensures BearerToken(Some(scheme + " " + token)) == Some(token)
  {
    SplitAfterWord(scheme, ' ', token);
    SplitWord(token, ' ');
    assert scheme + " " + token == scheme + [' '] + token;
  }

  /** A header with no space in it carries no token. */
  lemma BearerTokenOneWord(header: string)
    requires ' ' !in header
    ensures BearerToken(Some(header)) == None
  {
    SplitWord(header, ' ');
  }

  /** What `authenticateToken` decides: 401, 403, or proceed with the decoded payload. */
  datatype GateOutcome = MissingToken | BadToken | Authenticated(claims: Claims)

  function Gate(crypto: Crypto, header: Option<string>, now: Timestamp): (g: GateOutcome)
    ensures g == MissingToken <==> BearerToken(header).None?
    ensures g == BadToken <==> BearerToken(header).Some? && crypto.verify(BearerToken(header).value, now).None?
    ensures g.Authenticated? ==> crypto.verify(BearerToken(header).value, now) == Some(g.claims)
  {
    match BearerToken(header)
    case None => MissingToken
    case Some(token) =>
      match crypto.verify(token, now)
      case None => BadToken
      case Some(claims) => Authenticated(claims)
  }

  /** The answer the gate sends when it does not call the handler. */
  function Refusal(g: GateOutcome): (r: Response)
    requires !g.Authenticated?
    ensures g == MissingToken ==> r == Response(401, Message("Access token required"))
    ensures g == BadToken ==> r == Response(403, Message("Invalid or expired token"))
  {
    if g == MissingToken then Response(401, Message("Access token required"))
    else Response(403, Message("Invalid or expired token"))
  }

  /** `Bearer <token>` with a token signed at `iat` passes the gate until it expires, with the signed payload. */
  lemma GateAcceptsFreshToken(crypto: Crypto, cl: Claims, iat: Timestamp, now: Timestamp)
    requires Lawful(crypto) && iat <= now < iat + TokenLifetime
    ensures Gate(crypto, Some("Bearer " + crypto.sign(cl, iat)), now) == Authenticated(cl)
  {
    var token := crypto.sign(cl, iat);
    BearerTokenOf("Bearer", token);
    assert "Bearer " + token == "Bearer" + " " + token;
  }

  /** Once 24 hours have passed the same header is refused with 403. */
  lemma GateRejectsExpiredToken(crypto: Crypto, cl: Claims, iat: Timestamp, now: Timestamp)
    requires Lawful(crypto) && iat + TokenLifetime <= now
    ensures Gate(crypto, Some("Bearer " + crypto.sign(cl, iat)), now) == BadToken
    ensures Refusal(Gate(crypto, Some("Bearer " + crypto.sign(cl, iat)), now)).status == 403
  {
    var token := crypto.sign(cl, iat);
    BearerTokenOf("Bearer", token);
    assert "Bearer " + token == "Bearer" + " " + token;
  }

  // ---------------------------------------------------------------------------
  // Lookups, login and the response of register
  // ---------------------------------------------------------------------------

  function HasEmail(email: string): User -> bool {
    (u: User) => u.email == email
  }

  function HasId(id: string): User -> bool {
    (u: User) => u.id == id
  }

  /** No two stored users share an email address. */
  predicate EmailsUnique(users: seq<User>) {
    forall i, j :: 0 <= i < j < |users| ==> users[i].email != users[j].email
  }

  /** `users.find(u => u.email === email)` finds a user appended after every other email. */
  lemma FindAppended(users: seq<User>, u: User)
    requires forall j :: 0 <= j < |users| ==> users[j].email != u.email
    ensures Find(HasEmail(u.email), users + [u]) == Some(|users|)
  {
    FindAtEnd(HasEmail(u.email), users, u);
  }

  const RequiredLogin: string := "Email and password are required"
  const InvalidCredentials: string := "Invalid credentials"

  /** `POST /api/auth/login`. */
  function Login(users: seq<User>, crypto: Crypto, email: Option<string>, password: Option<string>, now: Timestamp): (r: Response)
    ensures Blank(email) || Blank(password) <==> r == Response(400, Message(RequiredLogin))
    ensures r.status == 200 <==>
      !Blank(email) && !Blank(password) && Find(HasEmail(email.value), users).Some?
      && crypto.compare(password.value, users[Find(HasEmail(email.value), users).value].password)
    ensures r.status == 200 ==>
      var u := users[Find(HasEmail(email.value), users).value];
      r.body == Session(u.Public(), crypto.sign(ClaimsOf(u), now), "Login successful")
    ensures r.status != 200 && r.status != 400 ==> r == Response(401, Message(InvalidCredentials))
  {
    if Blank(email) || Blank(password) then Response(400, Message(RequiredLogin))
    else
      match Find(HasEmail(email.value), users)
      case None => Response(401, Message(InvalidCredentials))
      case Some(i) =>
        if !crypto.compare(password.value, users[i].password) then Response(401, Message(InvalidCredentials))
        else Response(200, Session(users[i].Public(), crypto.sign(ClaimsOf(users[i]), now), "Login successful"))
  }

  /** An unknown email and a wrong password are answered identically. */
  lemma LoginFailuresAlike(users: seq<User>, crypto: Crypto, email: string, password: string, now: Timestamp)
    requires email != "" && password != ""
    requires Find(HasEmail(email), users).None?
      || !crypto.compare(password, users[Find(HasEmail(email), users).value].password)
    ensures Login(users, crypto, Some(email), Some(password), now) == Response(401, Message(InvalidCredentials))
  {
  }

  /** The account `register` creates: role `User`, avatar the name's upper-cased initial, password hashed. */
  function NewUser(crypto: Crypto, name: string, email: string, password: string, id: string, now: Timestamp): (u: User)
    ensures u.role == "User" && u.password == crypto.hash(password)
    ensures u.name == name && u.email == email && u.id == id && u.createdAt == now
    ensures name != "" ==> u.avatar == [UpperChar(name[0])]
  {
    User(id, name, email, crypto.hash(password), "User", Initial(name), now)
  }

  const RequiredRegister: string := "Name, email and password are required"
  const UserExists: string := "User already exists"

  /** After a successful register, logging in with the same email and password succeeds as that user. */
  lemma LoginAfterRegister(users: seq<User>, crypto: Crypto, name: string, email: string, password: string,
                           id: string, registered: Timestamp, now: Timestamp)
    requires Lawful(crypto)
    requires email != "" && password != ""
    requires Find(HasEmail(email), users).None?
    ensures
      var u := NewUser(crypto, name, email, password, id, registered);
      Login(users + [u], crypto, Some(email), Some(password), now)
        == Response(200, Session(u.Public(), crypto.sign(Claims(id, email, "User"), now), "Login successful"))
  {
    var u := NewUser(crypto, name, email, password, id, registered);
    FindAppended(users, u);
    assert crypto.compare(password, crypto.hash(password));
  }

  /** The token a successful login returns opens the gate for 24 hours with `{id, email, role}` of the user. */
  lemma LoginTokenOpensGate(users: seq<User>, crypto: Crypto, email: Option<string>, password: Option<string>,
                            issued: Timestamp, now: Timestamp)
    requires Lawful(crypto) && issued <= now < issued + TokenLifetime
    requires Login(users, crypto, email, password, issued).status == 200
    ensures
      var u := users[Find(HasEmail(email.value), users).value];
      Gate(crypto, Some("Bearer " + Login(users, crypto, email, password, issued).body.token), now) == Authenticated(ClaimsOf(u))
  {
    var u := users[Find(HasEmail(email.value), users).value];
    GateAcceptsFreshToken(crypto, ClaimsOf(u), issued, now);
  }

  // ---------------------------------------------------------------------------
  // Protected read routes
  // ---------------------------------------------------------------------------

  /** `GET /api/profile` once the gate has passed: the first user with the token's id. */
  function ProfileOf(users: seq<User>, claims: Claims): (r: Response)
    ensures r.status == 404 <==> forall j :: 0 <= j < |users| ==> users[j].id != claims.id
    ensures r.status == 404 ==> r.body == Message("User not found")
    ensures r.status != 404 ==> r.status == 200 && r.body.Profile? && r.body.profile.id == claims.id
    ensures r.status != 404 ==>
      exists j :: 0 <= j < |users| && r.body.profile == users[j].Public()
        && forall k :: 0 <= k < j ==> users[k].id != claims.id
  {
    match Find(HasId(claims.id), users)
    case None => Response(404, Message("User not found"))
    case Some(i) => Response(200, Profile(users[i].Public()))
  }

  /** `GET /api/dashboard/stats`: counts, the sum of values, the open deals and two constants. */
  function ServerStats(customers: seq<Customer>, deals: seq<Deal>): (s: DashboardStats)
    ensures s.totalCustomers == |customers| && s.totalDeals == |deals|
    ensures s.totalValue == Sum(DealValue, deals)
    ensures s.activeDeals <= s.totalDeals
    ensures s.activeDeals + Count(IsClosed, deals) == s.totalDeals
    ensures s.thisMonthRevenue == 15000 && s.conversionRate == 25
  {
    CountComplement(IsOpen, IsClosed, deals);
    DashboardStats(|customers|, |deals|, Sum(DealValue, deals), Count(IsOpen, deals), 15000, 25)
  }

  /** Creating a deal adds one to the deal count, its value to the total, and one to the open deals unless it is closed. */
  lemma StatsAfterNewDeal(customers: seq<Customer>, deals: seq<Deal>, d: Deal)
    ensures
      var before, after := ServerStats(customers, deals), ServerStats(customers, deals + [d]);
      after.totalCustomers == before.totalCustomers
      && after.totalDeals == before.totalDeals + 1
      && after.totalValue == before.totalValue + d.value
      && after.activeDeals == before.activeDeals + (if d.stage == Closed then 0 else 1)
  {
    SumAppend(DealValue, deals, [d]);
    FilterAppend(IsOpen, deals, [d]);
    assert [d][1..] == [];
  }

  /** Creating a customer changes only the customer count. */
  lemma StatsAfterNewCustomer(customers: seq<Customer>, deals: seq<Deal>, c: Customer)
    ensures ServerStats(customers + [c], deals) == ServerStats(customers, deals).(totalCustomers := |customers| + 1)
  {
  }

  // ---------------------------------------------------------------------------
  // Records built by the create routes
  // ---------------------------------------------------------------------------

  /**
   * The JSON body of `POST /api/customers`.  The fields the route overwrites may be
   * present in the body; `id` may be present too.
   */
  datatype CustomerBody = CustomerBody(
    id: Option<string>,
    name: string,
    email: string,
    phone: string,
    company: string,
    status: CustomerStatus,
    source: string,
    notes: string,
    createdAt: Option<Timestamp>,
    lastContact: Option<Timestamp>)

  datatype DealBody = DealBody(
    id: Option<string>,
    title: string,
    description: string,
    customerId: string,
    customerName: string,
    value: int,
    stage: DealStage,
    probability: int,
    expectedCloseDate: Timestamp,
    closeDate: Timestamp,
    notes: string,
    createdAt: Option<Timestamp>)

  datatype TaskBody = TaskBody(
    id: Option<string>,
    title: string,
    description: string,
    customerId: Option<string>,
    dealId: Option<string>,
    dueDate: Timestamp,
    priority: TaskPriority,
    status: TaskStatus,
    assignedTo: string,
    createdAt: Option<Timestamp>)

  /**
   * `{ id: generated, ...body, createdAt: now, lastContact: now }`: a body `id` wins
   * over the generated one, the server's timestamps win over the body's.
   */
  function NewCustomer(body: CustomerBody, generatedId: string, now: Timestamp): (c: Customer)
    ensures c.id == (if body.id.Some? then body.id.value else generatedId)
    ensures c.createdAt == now && c.lastContact == now
    ensures c.name == body.name && c.email == body.email && c.phone == body.phone && c.company == body.company
    ensures c.status == body.status && c.source == body.source && c.notes == body.notes
  {
    Customer(body.id.GetOr(generatedId), body.name, body.email, body.phone, body.company,
             body.status, body.source, now, now, body.notes)
  }

  /** `{ id: generated, ...body, createdAt: now }` for a deal. */
  function NewDeal(body: DealBody, generatedId: string, now: Timestamp): (d: Deal)
    ensures d.id == (if body.id.Some? then body.id.value else generatedId)
    ensures d.createdAt == now
    ensures d.title == body.title && d.description == body.description
    ensures d.customerId == body.customerId && d.customerName == body.customerName
    ensures d.value == body.value && d.stage == body.stage && d.probability == body.probability
    ensures d.expectedCloseDate == body.expectedCloseDate && d.closeDate == body.closeDate && d.notes == body.notes
  {
    Deal(body.id.GetOr(generatedId), body.title, body.description, body.customerId, body.customerName,
         body.value, body.stage, body.probability, body.expectedCloseDate, body.closeDate, now, body.notes)
  }

  /** `{ id: generated, ...body, createdAt: now }` for a task. */
  function NewTask(body: TaskBody, generatedId: string, now: Timestamp): (t: Task)
    ensures t.id == (if body.id.Some? then body.id.value else generatedId)
    ensures t.createdAt == now
    ensures t.title == body.title && t.description == body.description
    ensures t.customerId == body.customerId && t.dealId == body.dealId && t.dueDate == body.dueDate
    ensures t.priority == body.priority && t.status == body.status && t.assignedTo == body.assignedTo
  {
    Task(body.id.GetOr(generatedId), body.title, body.description, body.customerId, body.dealId,
         body.dueDate, body.priority, body.status, body.assignedTo, now)
  }

  /** Two records posted with the same body `id` get the same id, whatever the clock says. */
  lemma BodyIdOverrides(body: CustomerBody, id1: string, now1: Timestamp, id2: string, now2: Timestamp)
    requires body.id.Some?
    ensures NewCustomer(body, id1, now1).id == NewCustomer(body, id2, now2).id == body.id.value
  {
  }

  // ---------------------------------------------------------------------------
  // Seed data
  // ---------------------------------------------------------------------------

  /** The demo account, its password hashed when the server starts. */
  function DemoAccount(crypto: Crypto, startTime: Timestamp): User {
    User("1", "Demo User", "demo@moderncrm.com", crypto.hash("demo123"), "Administrator", "D", startTime)
  }

  const SeedCustomers: seq<Customer> := [
    Customer("1", "John Smith", "john.smith@acme.com", "+1-555-0123", "Acme Corp", Active, "Website",
             1705276800000, 1710028800000, "Interested in enterprise solution"),
    Customer("2", "Sarah Johnson", "sarah.j@techstart.com", "+1-555-0456", "TechStart Inc", Prospect, "LinkedIn",
             1708387200000, 1709856000000, "Looking for CRM solution")
  ]

  const SeedDeals: seq<Deal> := [
    Deal("1", "Acme Corp Enterprise License", "Enterprise software license for 500 users", "1", "John Smith",
         50000, Negotiation, 75, 1713139200000, 1713139200000, 1706745600000, "Final contract review in progress")
  ]

  const SeedTasks: seq<Task> := [
    Task("1", "Follow up with Acme Corp", "Call John to discuss contract terms", Some("1"), Some("1"),
         1710892800000, High, Pending, "Sales Team", 1710460800000)
  ]

  /** The demo credentials log in as the demo account. */
  lemma DemoLogin(crypto: Crypto, startTime: Timestamp, now: Timestamp)
    requires Lawful(crypto)
    ensures Login([DemoAccount(crypto, startTime)], crypto, Some("demo@moderncrm.com"), Some("demo123"), now)
      == Response(200, Session(DemoAccount(crypto, startTime).Public(),
                               crypto.sign(Claims("1", "demo@moderncrm.com", "Administrator"), now), "Login successful"))
  {
    assert crypto.compare("demo123", crypto.hash("demo123"));
  }

  /** The seeded dashboard: 2 customers, 1 deal worth 50000, open. */
  lemma SeedStats()
    ensures ServerStats(SeedCustomers, SeedDeals) == DashboardStats(2, 1, 50000, 1, 15000, 25)
  {
    assert SeedDeals[1..] == [];
  }

  // ---------------------------------------------------------------------------
  // The running server
  // ---------------------------------------------------------------------------

  /** The module-level arrays of the server and the handlers that read and push to them. */
  class CrmServer {
    const crypto: Crypto
    var users: seq<User>
    var customers: seq<Customer>
    var deals: seq<Deal>
    var tasks: seq<Task>

    /** The invariant `register` keeps: one account per email address. */
    ghost predicate Valid()
      reads this
    {
      EmailsUnique(users)
    }

    /** Start-up: the demo account and the seed records. */
    constructor(crypto: Crypto, startTime: Timestamp)
      ensures Valid()
      ensures this.crypto == crypto && users == [DemoAccount(crypto, startTime)]
      ensures customers == SeedCustomers && deals == SeedDeals && tasks == SeedTasks
    {
      this.crypto := crypto;
      users := [DemoAccount(crypto, startTime)];
      customers := SeedCustomers;
      deals := SeedDeals;
      tasks := SeedTasks;
    }

    /** `POST /api/auth/register`; `id` is `Date.now().toString()` and `now` the clock. */
    method Register(name: Option<string>, email: Option<string>, password: Option<string>, id: string, now: Timestamp)
      returns (r: Response)
      requires Valid()
      modifies this`users
      ensures Valid()
      ensures Blank(name) || Blank(email) || Blank(password) ==>
        users == old(users) && r == Response(400, Message(RequiredRegister))
      ensures !Blank(name) && !Blank(email) && !Blank(password) && Find(HasEmail(email.value), old(users)).Some? ==>
        users == old(users) && r == Response(400, Message(UserExists))
      ensures !Blank(name) && !Blank(email) && !Blank(password) && Find(HasEmail(email.value), old(users)).None? ==>
        var u := NewUser(crypto, name.value, email.value, password.value, id, now);
        users == old(users) + [u]
        && r == Response(201, Session(u.Public(), crypto.sign(ClaimsOf(u), now), "Registration successful"))
    {
      if Blank(name) || Blank(email) || Blank(password) {
        return Response(400, Message(RequiredRegister));
      }
      if Find(HasEmail(email.value), users).Some? {
        return Response(400, Message(UserExists));
      }
      var u := NewUser(crypto, name.value, email.value, password.value, id, now);
      users := users + [u];
      r := Response(201, Session(u.Public(), crypto.sign(ClaimsOf(u), now), "Registration successful"));
    }

    /** `POST /api/auth/login` against the current store. */
    method HandleLogin(email: Option<string>, password: Option<string>, now: Timestamp) returns (r: Response)
      ensures r == Login(users, crypto, email, password, now)
    {
      r := Login(users, crypto, email, password, now);
    }

    /** `GET /api/profile`. */
    method GetProfile(header: Option<string>, now: Timestamp) returns (r: Response)
      ensures !Gate(crypto, header, now).Authenticated? ==> r == Refusal(Gate(crypto, header, now))
      ensures Gate(crypto, header, now).Authenticated? ==> r == ProfileOf(users, Gate(crypto, header, now).claims)
    {
      var g := Gate(crypto, header, now);
      if !g.Authenticated? {
        return Refusal(g);
      }
      r := ProfileOf(users, g.claims);
    }

    /** `GET /api/dashboard/stats`. */
    method GetDashboardStats(header: Option<string>, now: Timestamp) returns (r: Response)
      ensures !Gate(crypto, header, now).Authenticated? ==> r == Refusal(Gate(crypto, header, now))
      ensures Gate(crypto, header, now).Authenticated? ==> r == Response(200, Stats(ServerStats(customers, deals)))
    {
      var g := Gate(crypto, header, now);
      if !g.Authenticated? {
        return Refusal(g);
      }
      r := Response(200, Stats(ServerStats(customers, deals)));
    }

    /** `GET /api/customers`. */
    method ListCustomers(header: Option<string>, now: Timestamp) returns (r: Response)
      ensures !Gate(crypto, header, now).Authenticated? ==> r == Refusal(Gate(crypto, header, now))
      ensures Gate(crypto, header, now).Authenticated? ==> r == Response(200, CustomerList(customers))
    {
      var g := Gate(crypto, header, now);
      if !g.Authenticated? {
        return Refusal(g);
      }
      r := Response(200, CustomerList(customers));
    }

    /** `GET /api/deals`. */
    method ListDeals(header: Option<string>, now: Timestamp) returns (r: Response)
      ensures !Gate(crypto, header, now).Authenticated? ==> r == Refusal(Gate(crypto, header, now))
      ensures Gate(crypto, header, now).Authenticated? ==> r == Response(200, DealList(deals))
    {
      var g := Gate(crypto, header, now);
      if !g.Authenticated? {
        return Refusal(g);
      }
      r := Response(200, DealList(deals));
    }

    /** `GET /api/tasks`. */
    method ListTasks(header: Option<string>, now: Timestamp) returns (r: Response)
      ensures !Gate(crypto, header, now).Authenticated? ==> r == Refusal(Gate(crypto, header, now))
      ensures Gate(crypto, header, now).Authenticated? ==> r == Response(200, TaskList(tasks))
    {
      var g := Gate(crypto, header, now);
      if !g.Authenticated? {
        return Refusal(g);
      }
      r := Response(200, TaskList(tasks));
    }

    /** `POST /api/customers`: behind the gate, push one record and echo it with 201. */
    method CreateCustomer(header: Option<string>, body: CustomerBody, generatedId: string, now: Timestamp)
      returns (r: Response)
      modifies this`customers
      ensures !Gate(crypto, header, now).Authenticated? ==>
        customers == old(customers) && r == Refusal(Gate(crypto, header, now))
      ensures Gate(crypto, header, now).Authenticated? ==>
        customers == old(customers) + [NewCustomer(body, generatedId, now)]
        && r == Response(201, CustomerRecord(NewCustomer(body, generatedId, now)))
    {
      var g := Gate(crypto, header, now);
      if !g.Authenticated? {
        return Refusal(g);
      }
      var c := NewCustomer(body, generatedId, now);
      customers := customers + [c];
      r := Response(201, CustomerRecord(c));
    }

    /** `POST /api/deals`. */
    method CreateDeal(header: Option<string>, body: DealBody, generatedId: string, now: Timestamp)
      returns (r: Response)
      modifies this`deals
      ensures !Gate(crypto, header, now).Authenticated? ==>
        deals == old(deals) && r == Refusal(Gate(crypto, header, now))
      ensures Gate(crypto, header, now).Authenticated? ==>
        deals == old(deals) + [NewDeal(body, generatedId, now)]
        && r == Response(201, DealRecord(NewDeal(body, generatedId, now)))
    {
      var g := Gate(crypto, header, now);
      if !g.Authenticated? {
        return Refusal(g);
      }
      var d := NewDeal(body, generatedId, now);
      deals := deals + [d];
      r := Response(201, DealRecord(d));
    }

    /** `POST /api/tasks`. */
    method CreateTask(header: Option<string>, body: TaskBody, generatedId: string, now: Timestamp)
      returns (r: Response)
      modifies this`tasks
      ensures !Gate(crypto, header, now).Authenticated? ==>
        tasks == old(tasks) && r == Refusal(Gate(crypto, header, now))
      ensures Gate(crypto, header, now).Authenticated? ==>
        tasks == old(tasks) + [NewTask(body, generatedId, now)]
        && r == Response(201, TaskRecord(NewTask(body, generatedId, now)))
    {
      var g := Gate(crypto, header, now);
      if !g.Authenticated? {
        return Refusal(g);
      }
      var t := NewTask(body, generatedId, now);
      tasks := tasks + [t];
      r := Response(201, TaskRecord(t));
    }
  }

  /**
   * A session against a running server: register, log in with the same credentials,
   * create a customer with the returned token, and list the customers.  The list is the
   * old one extended by the new record, and the store still has unique emails.
   */
  method RegisterLoginCreateList(s: CrmServer, name: string, email: string, password: string, userId: string,
                                 body: CustomerBody, customerId: string, now: Timestamp)
    returns (listed: Response)
    requires s.Valid() && Lawful(s.crypto)
    requires name != "" && email != "" && password != ""
    requires Find(HasEmail(email), s.users).None?
    modifies s
    ensures s.Valid()
    ensures s.users == old(s.users) + [NewUser(s.crypto, name, email, password, userId, now)]
    ensures s.customers == old(s.customers) + [NewCustomer(body, customerId, now)]
    ensures s.deals == old(s.deals) && s.tasks == old(s.tasks)
    ensures listed == Response(200, CustomerList(s.customers))
  {
    var registered := s.Register(Some(name), Some(email), Some(password), userId, now);
    var login := s.HandleLogin(Some(email), Some(password), now);
    LoginAfterRegister(old(s.users), s.crypto, name, email, password, userId, now, now);
    LoginTokenOpensGate(s.users, s.crypto, Some(email), Some(password), now, now);
    var header := Some("Bearer " + login.body.token);
    var created := s.CreateCustomer(header, body, customerId, now);
    listed := s.ListCustomers(header, now);
  }

  // ---------------------------------------------------------------------------
  // Two registrations with one email
  // ---------------------------------------------------------------------------

  /** The body fields of one `POST /api/auth/register`, with the id and the clock it is given. */
  datatype RegisterRequest = RegisterRequest(
    name: Option<string>, email: Option<string>, password: Option<string>, id: string, now: Timestamp)

  /** The request passes the field check and the duplicate check against `users`. */
  predicate Admits(users: seq<User>, q: RegisterRequest) {
    !Blank(q.name) && !Blank(q.email) && !Blank(q.password) && Find(HasEmail(q.email.value), users).None?
  }

  /** The account a request with all three fields creates. */
  function Account(crypto: Crypto, q: RegisterRequest): (u: User)
    requires !Blank(q.name) && !Blank(q.email) && !Blank(q.password)
    ensures u.email == q.email.value && u.id == q.id
  {
    NewUser(crypto, q.name.value, q.email.value, q.password.value, q.id, q.now)
  }

  /**
   * The store after two register handlers interleave at `await bcrypt.hash`, as the handler
   * is written: both run their checks against the same `users`, then both push.
   */
  function OverlappingRegisters(users: seq<User>, crypto: Crypto, a: RegisterRequest, b: RegisterRequest): (r: seq<User>)
    ensures users <= r && |r| <= |users| + 2
    ensures Admits(users, a) && Admits(users, b) ==> r == users + [Account(crypto, a), Account(crypto, b)]
  {
    var first := if Admits(users, a) then [Account(crypto, a)] else [];
    var second := if Admits(users, b) then [Account(crypto, b)] else [];
    users + first + second
  }

  /** Two overlapping registrations of one new email both get in, and the store then holds that email twice. */
  lemma OverlappingRegistersDuplicate(users: seq<User>, crypto: Crypto, a: RegisterRequest, b: RegisterRequest)
    requires Admits(users, a) && Admits(users, b) && a.email == b.email
    ensures !EmailsUnique(OverlappingRegisters(users, crypto, a, b))
  {
    var r := OverlappingRegisters(users, crypto, a, b);
    assert r[|users|].email == r[|users| + 1].email;
  }

  /**
   * The same two requests handled one after the other: when the first one registers an
   * email, the second one with that email is refused, and the store keeps unique emails.
   */
  method SequentialRegisters(s: CrmServer, a: RegisterRequest, b: RegisterRequest) returns (ra: Response, rb: Response)
    requires s.Valid()
    modifies s
    ensures s.Valid()
    ensures Admits(old(s.users), a) && a.email == b.email && !Blank(b.name) && !Blank(b.password) ==>
      ra.status == 201 && rb == Response(400, Message(UserExists)) && |s.users| == |old(s.users)| + 1
  {
    ra := s.Register(a.name, a.email, a.password, a.id, a.now);
    if Admits(old(s.users), a) && a.email == b.email {
      assert HasEmail(b.email.value)(s.users[|old(s.users)|]);
    }
    rb := s.Register(b.name, b.email, b.password, b.id, b.now);
  }
}
