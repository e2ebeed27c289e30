# In-memory user registry (que1.js)

A Dafny model of the small REST service in `que1.js`: a process-wide, ordered
list of users seeded with `{id: 1, name: "Vijay"}` and `{id: 2, name: "Preeti"}`,
a `GET /users` handler that returns the list as it is, and a `POST /users`
handler that reads `name` from the parsed JSON body, refuses a falsy name with
status 400 and `{error: "Name is required"}`, and otherwise appends
`{id: users.length + 1, name}` and returns it with status 201.

Two modules:

- `Js` (`js.dfy`): JavaScript values as the JSON body parser produces them,
  JavaScript truthiness (`Falsy`, the test behind `!name`) and reading an own
  property of the parsed body (`Property`, with the parser's last-duplicate-wins
  rule in `Lookup`).
- `Users` (`users.dfy`): the user record and response datatypes, the seed, the
  pure meaning of one POST (`Post`) and of a whole history of POSTs (`Replay`),
  and the `Registry` class whose `users` field is the mutable array; its
  `List` and `Create` methods are the two handlers. The ghost field `requests`
  records the names of all POSTs so far, and `Valid()` says the array is
  `Replay(requests)`. From `ReplayShape` follows the invariant every operation
  keeps: the user at position `i` has id `i + 1`, so ids are unique and
  increasing.

The handler tests only `!name`, so any truthy value (a number, `true`, an
array, an object) is accepted and stored as the user's name;
`FreshRejections` shows a numeric name being accepted.

## Model

| member | source | states |
|---|---|---|
| Js.FalsyValues | que1.js:20 | the name test rejects exactly `undefined`, `null`, `false`, `0` and `""`; every other value of any type passes |
| Js.Lookup | que1.js:18 | a key absent from the object's fields gives nothing; a present key gives the value of its last occurrence |
| Js.Property | que1.js:18 | `req.body.name` is `undefined` when the body is not an object or has no `name` key, and otherwise the last value bound to `name` |
| Users.Seed | que1.js:6-9 | the initial list has two users, ids 1 and 2 at positions 0 and 1, named "Vijay" and "Preeti" |
| Users.IdsIncreasing | que1.js:25 | when every id is its position plus one, ids are strictly increasing along the list and no two users share one |
| Users.Post | que1.js:17-31 | a falsy name leaves the list unchanged and answers 400 with "Name is required"; a truthy name appends `{id: old length + 1, name}` keeping every earlier element, answers 201 with exactly that user, and keeps ids equal to positions plus one; status is 201 exactly when the name is truthy |
| Users.ReplayShape | que1.js:6-28 | after any sequence of POSTs the list is the seed followed by the accepted names in arrival order, its length is 2 plus the number accepted, and each id is its position plus one |
| Users.RejectedIsNoOp | que1.js:20-22 | a POST with a falsy name does not change the list |
| Users.Registry.constructor | que1.js:6-9 | a new registry holds exactly `[{1, "Vijay"}, {2, "Preeti"}]`, in that order |
| Users.Registry.List | que1.js:12-14 | GET answers 200 with the current list itself, changes nothing, and the list starts with the seed and has ids equal to positions plus one |
| Users.Registry.Create | que1.js:17-31 | POST reads `name` from the body; a falsy name leaves the list unchanged and answers 400; otherwise the new list is the old one plus `{id: old length + 1, name}` and the answer is 201 with that last element; the id invariant still holds |
| Users.ListTwice | que1.js:12-14 | two GETs with nothing in between give equal answers |
| Users.FreshCreateAlice | que1.js:25-30 | on a fresh registry GET gives the seed, POST "Alice" answers 201 with `{3, "Alice"}`, and the next GET gives the seed plus that user |
| Users.FreshRejections | que1.js:20-22 | on a fresh registry POSTs with an empty, a `null` and a missing name each answer 400 with "Name is required" and the list stays the seed; a numeric name is accepted as user 3 |

## Left out

- Express wiring (`express()`, the JSON body middleware, route registration, `app.listen` on port 3000 and its console message, que1.js:1-4 and 33-35): the parsed body is the input of `Create` and the response is its returned value.
- JSON serialisation of responses, malformed request bodies and content-type handling: these belong to the framework. `Create` requires the body to be a JSON object or array, which is what Express 4's JSON body parser hands on (under Express 5 a request without a JSON body leaves `req.body` undefined and que1.js:18 throws); reading `name` off `null` or `undefined` would throw and is not modelled.
- Concurrency between requests: handlers run one at a time to completion, so each `Create` is one atomic step.
- JavaScript numbers are modelled as unbounded reals: `NaN` (falsy) cannot come out of JSON parsing and IEEE rounding is not modelled; ids are unbounded integers, so no precision loss beyond 2^53 users.
- JavaScript strings are UTF-16 code-unit sequences; `Str` holds a Dafny `string`, a sequence of Unicode scalar values, so a lone surrogate such as `"\ud800"` cannot be represented. The handler only tests whether a name is empty, so this does not change the modelled behaviour.
- Js.Property: inherited prototype properties are not modelled; none of them is called `name` for the objects and arrays JSON parsing produces.
- Aliasing: in JavaScript the stored user and the returned body are the same object; the model uses values, which makes no difference because nothing mutates a user after it is created.
- `lectureNotes/lec1/server.js` and `lectureNotes/lec3/lec3.js`: servers that answer every request with a fixed text body and bind a port; there is no logic in them beyond I/O.
