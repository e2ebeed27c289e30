/**
  The in-memory user registry behind `GET /users` and `POST /users`: a
  process-wide ordered list of user records, seeded with two users, that only
  ever grows by appending. The pure functions give the meaning of one request
  and of a whole history of requests; the `Registry` class is the mutable list
  itself, with the two handlers as its methods.
 */
module Users {
  import opened Js

  /** One user record. The name is whatever value the request carried: the
      handler checks only that it is truthy, not that it is text. */
  datatype User = User(id: int, name: JsValue)

  /** The JSON bodies the two handlers send. */
  datatype Body =
    | UserJson(user: User)
    | UsersJson(users: seq<User>)
    | ErrorJson(error: string)

  datatype Response = Response(status: int, body: Body)

  const NameRequired: string := "Name is required"

  /** The registry's invariant: the user at position `i` has id `i + 1`. */
  predicate IdsAreIndices(users: seq<User>)
  {
    forall i :: 0 <= i < |users| ==> users[i].id == i + 1
  }

  /** Ids that follow positions are strictly increasing, hence unique. */
  lemma IdsIncreasing(users: seq<User>)
    requires IdsAreIndices(users)
    ensures forall i, j :: 0 <= i < j < |users| ==> users[i].id < users[j].id
    ensures forall i, j :: 0 <= i < |users| && 0 <= j < |users| && users[i].id == users[j].id ==> i == j
  {
  }

  /** The two records the registry holds when the process starts. */
  function Seed(): (s: seq<User>)
    ensures |s| == 2 && IdsAreIndices(s)
    ensures s[0].name == Str("Vijay") && s[1].name == Str("Preeti")
  {
    [User(1, Str("Vijay")), User(2, Str("Preeti"))]
  }

  /** The registry after a request, paired with the response sent for it. */
  datatype Outcome = Outcome(users: seq<User>, response: Response)

  /** The POST handler given the name it read from the body: a falsy name is
      refused with 400 and nothing is stored; any other name becomes a new
      user whose id is one more than the current count, appended at the end
      and echoed back with 201. */
  function Post(users: seq<User>, name: JsValue): (r: Outcome)
    ensures Falsy(name) ==>
      r.users == users && r.response == Response(400, ErrorJson(NameRequired))
    ensures !Falsy(name) ==>
      |r.users| == |users| + 1 && r.users[..|users|] == users &&
      r.users[|users|] == User(|users| + 1, name) &&
      r.response == Response(201, UserJson(r.users[|users|]))
    ensures r.response.status == 201 <==> !Falsy(name)
    ensures IdsAreIndices(users) ==> IdsAreIndices(r.users)
  {
    if Falsy(name) then
      Outcome(users, Response(400, ErrorJson(NameRequired)))
    else
      var newUser := User(|users| + 1, name);
      Outcome(users + [newUser], Response(201, UserJson(newUser)))
  }

  /** The registry after the process started and then handled POST requests
      carrying these names, in this order. */
  function Replay(names: seq<JsValue>): seq<User>
    decreases |names|
  {
    if |names| == 0 then Seed()
    else Post(Replay(names[..|names| - 1]), names[|names| - 1]).users
  }

  /** The names that passed validation, in the order they arrived. */
  function Accepted(names: seq<JsValue>): seq<JsValue>
    decreases |names|
  {
    if |names| == 0 then []
    else
      var last := names[|names| - 1];
      Accepted(names[..|names| - 1]) + (if Falsy(last) then [] else [last])
  }

  function NamesOf(users: seq<User>): seq<JsValue>
  {
    seq(|users|, i requires 0 <= i < |users| => users[i].name)
  }

  /** Whatever was posted, the registry is the seed followed by one record per
      accepted name, in arrival order, and every id equals its position plus one. */
  lemma {:induction false} ReplayShape(names: seq<JsValue>)
    ensures |Replay(names)| == 2 + |Accepted(names)|
    ensures Replay(names)[..2] == Seed()
    ensures NamesOf(Replay(names)[2..]) == Accepted(names)
    ensures IdsAreIndices(Replay(names))
  {
    if |names| == 0 {
      assert Replay(names) == Seed();
    } else {
      var prefix, last := names[..|names| - 1], names[|names| - 1];
      ReplayShape(prefix);
      var before := Replay(prefix);
      assert Replay(names) == Post(before, last).users;
      if !Falsy(last) {
        var after := Post(before, last).users;
        assert after == before + [User(|before| + 1, last)];
        assert after[2..] == before[2..] + [User(|before| + 1, last)];
        assert NamesOf(after[2..]) == NamesOf(before[2..]) + [last];
      }
    }
  }

  /** A rejected request leaves no trace: replaying it changes nothing. */
  lemma RejectedIsNoOp(names: seq<JsValue>, name: JsValue)
    requires Falsy(name)
    ensures Replay(names + [name]) == Replay(names)
  {
  }

  /** The user list as a mutable object: `users` is the array the handlers
      read and push to; `requests` records, for the proof only, the name
      carried by every POST handled so far. */
  class Registry {
    var users: seq<User>
    ghost var requests: seq<JsValue>

    ghost predicate Valid()
      reads this
    {
      users == Replay(requests)
    }

    /** Process start: the two seed users, in seed order. */
    constructor ()
      ensures Valid() && requests == []
      ensures users == [User(1, Str("Vijay")), User(2, Str("Preeti"))]
    {
      users := Seed();
      requests := [];
    }

    /** GET /users: the whole list, unchanged, with the default status 200. */
    method List() returns (r: Response)
      requires Valid()
      ensures r.status == 200 && r.body == UsersJson(users)
      ensures IdsAreIndices(r.body.users)
      ensures |r.body.users| >= 2 && r.body.users[..2] == Seed()
    {
      ReplayShape(requests);
      r := Response(200, UsersJson(users));
    }

    /** POST /users with the parsed JSON body. */
    method Create(body: JsValue) returns (r: Response)
      requires Valid() && ParsedBody(body)
      modifies this
      ensures Valid() && requests == old(requests) + [Property(body, "name")]
      ensures Outcome(users, r) == Post(old(users), Property(body, "name"))
      ensures Falsy(Property(body, "name")) ==>
        users == old(users) && r == Response(400, ErrorJson(NameRequired))
      ensures !Falsy(Property(body, "name")) ==>
        users == old(users) + [User(|old(users)| + 1, Property(body, "name"))] &&
        r == Response(201, UserJson(users[|users| - 1]))
      ensures IdsAreIndices(users)
    {
      var name := Property(body, "name");
      requests := requests + [name];
      assert requests[..|requests| - 1] == old(requests);
      if Falsy(name) {
        r := Response(400, ErrorJson(NameRequired));
      } else {
        var newUser := User(|users| + 1, name);
        users := users + [newUser];
        r := Response(201, UserJson(newUser));
      }
      ReplayShape(requests);
    }
  }

  /** Two lists with no create in between answer the same. */
  method ListTwice(registry: Registry) returns (first: Response, second: Response)
    requires registry.Valid()
    ensures first == second && first.body == UsersJson(registry.users)
  {
    first := registry.List();
    second := registry.List();
  }

  /** A fresh registry lists the seed, accepts "Alice" as user 3, and then
      lists three users. */
  method FreshCreateAlice() returns (before: Response, created: Response, after: Response)
    ensures before == Response(200, UsersJson(Seed()))
    ensures created == Response(201, UserJson(User(3, Str("Alice"))))
    ensures after == Response(200, UsersJson(Seed() + [User(3, Str("Alice"))]))
  {
    var registry := new Registry();
    before := registry.List();
    created := registry.Create(Obj([("name", Str("Alice"))]));
    after := registry.List();
  }

  /** An empty name, a `null` name and a missing name are each refused with
      400, and the list still holds only the seed; a number is not refused. */
  method FreshRejections() returns (empty: Response, nullName: Response, missing: Response,
                                    listed: Response, numeric: Response)
    ensures empty == Response(400, ErrorJson("Name is required"))
    ensures nullName == empty && missing == empty
    ensures listed == Response(200, UsersJson(Seed()))
    ensures numeric == Response(201, UserJson(User(3, Num(42.0))))
  {
    var registry := new Registry();
    empty := registry.Create(Obj([("name", Str(""))]));
    nullName := registry.Create(Obj([("name", Null)]));
    missing := registry.Create(Obj([]));
    listed := registry.List();
    numeric := registry.Create(Obj([("name", Num(42.0))]));
  }
}
