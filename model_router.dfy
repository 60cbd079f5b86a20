/** The model router: a per-task table of model names with a per-user
    preference table on top, a three-step routing rule and the sorted list
    of every model either table names. */
module ModelRouting {
  import opened Strings
  import opened Wrappers

  /** The task whose model is the default route. */
  const DEFAULT_TASK := "model1"

  /** The task table a new router starts with. */
  function InitialTaskMapping(): map<string, string>
  {
    map["model1" := "gpt-oss:20b", "model2" := "qwen2.5-coder:7b"]
  }

  /** Python truthiness of an optional string: present and not empty. */
  predicate Truthy(o: Option<string>)
  {
    o.Some? && o.value != ""
  }

  // ----- sorted(set): the strictly increasing sequence of a finite set -----

  /** `x` is the least element of `s`. */
  predicate IsLeast(x: string, s: set<string>)
  {
    x in s && forall y | y in s :: !StrLess(y, x)
  }

  /** Every non-empty finite set of strings has a least element. */
  lemma {:induction false} LeastExists(s: set<string>)
    requires s != {}
    ensures exists x :: IsLeast(x, s)
    decreases |s|
  {
    var z :| z in s;
    if s - {z} == {} {
      assert s == {z};
      StrLessIrreflexive(z);
      assert IsLeast(z, s);
    } else {
      LeastExists(s - {z});
      var m :| IsLeast(m, s - {z});
      if StrLess(z, m) {
        forall y | y in s ensures !StrLess(y, z) {
          if y == z {
            StrLessIrreflexive(z);
          } else if StrLess(y, z) {
            StrLessTransitive(y, z, m);
          }
        }
        assert IsLeast(z, s);
      } else {
        assert IsLeast(m, s);
      }
    }
  }

  /** The least element is unique. */
  lemma LeastUnique(s: set<string>)
    ensures forall x, x' | IsLeast(x, s) && IsLeast(x', s) :: x == x'
  {
    forall x, x' | IsLeast(x, s) && IsLeast(x', s) ensures x == x' {
      StrLessTotal(x, x');
    }
  }

  /** `sorted(s)` of a set of strings: its least element first, then the
      rest sorted. */
  function SortedList(s: set<string>): (r: seq<string>)
    ensures StrictlySorted(r)
    ensures |r| == |s|
    ensures forall x :: x in r <==> x in s
    decreases |s|
  {
    if s == {} then []
    else
      LeastExists(s);
      LeastUnique(s);
      var x :| IsLeast(x, s);
      var rest := SortedList(s - {x});
      assert forall k | 0 <= k < |rest| :: StrLess(x, rest[k]) by {
        forall k | 0 <= k < |rest| ensures StrLess(x, rest[k]) {
          assert rest[k] in s - {x};
          StrLessTotal(x, rest[k]);
        }
      }
      [x] + rest
  }

  /** A strictly sorted sequence is fixed by its elements, so `SortedList`
      does not depend on which element it picks first. */
  lemma {:induction false} SortedUnique(a: seq<string>, b: seq<string>)
    requires StrictlySorted(a) && StrictlySorted(b)
    requires forall x :: x in a <==> x in b
    ensures a == b
  {
    if a != [] && b != [] {
      assert a[0] == b[0] by {
        assert b[0] in a && a[0] in b;
        var i :| 0 <= i < |a| && a[i] == b[0];
        var j :| 0 <= j < |b| && b[j] == a[0];
        if i > 0 && j > 0 {
          StrLessTransitive(a[0], a[i], a[0]);
          StrLessIrreflexive(a[0]);
        } else if i > 0 {
          StrLessIrreflexive(a[0]);
        } else if j > 0 {
          StrLessIrreflexive(b[0]);
        }
      }
      forall x ensures x in a[1..] <==> x in b[1..] {
        HeadNotInTail(a);
        HeadNotInTail(b);
        assert x in a <==> x == a[0] || x in a[1..];
        assert x in b <==> x == b[0] || x in b[1..];
      }
      SortedUnique(a[1..], b[1..]);
      assert a == [a[0]] + a[1..] && b == [b[0]] + b[1..];
    } else if a != [] {
      NonEmptyMembers(a, b);
      assert false;
    } else if b != [] {
      NonEmptyMembers(b, a);
      assert false;
    }
  }

  /** A sequence with the elements of a non-empty one is not empty. */
  lemma NonEmptyMembers(a: seq<string>, b: seq<string>)
    requires a != [] && forall x :: x in a <==> x in b
    ensures b != []
  {
    assert a[0] in b;
  }

  /** The first element of a strictly sorted sequence is not repeated. */
  lemma HeadNotInTail(a: seq<string>)
    requires a != [] && StrictlySorted(a)
    ensures a[0] !in a[1..] && forall k | 0 < k < |a| :: StrLess(a[0], a[k])
  {
    if a[0] in a[1..] {
      var k :| 0 <= k < |a[1..]| && a[1..][k] == a[0];
      assert StrLess(a[0], a[k + 1]);
      StrLessIrreflexive(a[0]);
    }
  }

  /** A model router. */
  class ModelRouter {
    /** Task type to model name. */
    var taskMapping: map<string, string>
    /** User id to preferred model name. */
    var userMapping: map<string, string>

    /** The default task always has a model, so routing is total. */
    predicate Valid()
      reads this
    {
      DEFAULT_TASK in taskMapping
    }

    constructor ()
      ensures taskMapping == InitialTaskMapping() && userMapping == map[]
      ensures Valid()
    {
      taskMapping := InitialTaskMapping();
      userMapping := map[];
    }

    /** `add_user_preference`: set or overwrite the user's preferred model;
        the task table and every other user's preference are unchanged. */
    method AddUserPreference(userId: string, modelName: string)
      modifies this
      ensures userMapping == old(userMapping)[userId := modelName]
      ensures taskMapping == old(taskMapping)
      ensures Valid() == old(Valid())
    {
      userMapping := userMapping[userId := modelName];
    }

    /** `route(task_type=..., user_id=...)`: the preference of a non-empty,
        known user id; failing that, the model of a non-empty, known task
        type; failing that, the default task's model. */
    function Route(taskType: Option<string>, userId: Option<string>): (m: string)
      reads this
      requires Valid()
      ensures m in taskMapping.Values || m in userMapping.Values
      ensures Truthy(userId) && userId.value in userMapping ==> m == userMapping[userId.value]
      ensures !(Truthy(userId) && userId.value in userMapping) && Truthy(taskType) && taskType.value in taskMapping
        ==> m == taskMapping[taskType.value]
      ensures !(Truthy(userId) && userId.value in userMapping) && !(Truthy(taskType) && taskType.value in taskMapping)
        ==> m == taskMapping[DEFAULT_TASK]
    {
      if Truthy(userId) && userId.value in userMapping then userMapping[userId.value]
      else if Truthy(taskType) && taskType.value in taskMapping then taskMapping[taskType.value]
      else taskMapping[DEFAULT_TASK]
    }

    /** `list_models`: every model either table names, sorted, each once. */
    function ListModels(): (ms: seq<string>)
      reads this
      ensures StrictlySorted(ms)
      ensures forall x :: x in ms <==> x in taskMapping.Values || x in userMapping.Values
    {
      SortedList(taskMapping.Values + userMapping.Values)
    }
  }

  /** A known, non-empty user id decides the route whatever the task type. */
  lemma RoutePrefersUser(r: ModelRouter, t1: Option<string>, t2: Option<string>, userId: string)
    requires r.Valid() && userId != "" && userId in r.userMapping
    ensures r.Route(t1, Some(userId)) == r.Route(t2, Some(userId)) == r.userMapping[userId]
  {
  }

  /** Every route is one of the listed models. */
  lemma RouteListed(r: ModelRouter, taskType: Option<string>, userId: Option<string>)
    requires r.Valid()
    ensures r.Route(taskType, userId) in r.ListModels()
  {
  }

  /** A new router sends an unknown task to `gpt-oss:20b` and `model2` to
      `qwen2.5-coder:7b`; after a preference for `alice` it routes her to
      that model. */
  method RoutingScenario() returns (unknown: string, second: string, preferred: string)
    ensures unknown == "gpt-oss:20b" && second == "qwen2.5-coder:7b" && preferred == "custom-model"
  {
    var router := new ModelRouter();
    unknown := router.Route(Some("code"), None);
    second := router.Route(Some("model2"), None);
    router.AddUserPreference("alice", "custom-model");
    preferred := router.Route(None, Some("alice"));
  }

  /** The listed models are the only strictly sorted sequence of the
      models the two tables name. */
  lemma ListModelsIs(r: ModelRouter, expected: seq<string>)
    requires StrictlySorted(expected)
    requires forall x :: x in expected <==> x in r.taskMapping.Values || x in r.userMapping.Values
    ensures r.ListModels() == expected
  {
    SortedUnique(r.ListModels(), expected);
  }

  /** A new router with one user preference lists three models, in order. */
  method ListScenario() returns (ms: seq<string>)
    ensures ms == ["custom-model", "gpt-oss:20b", "qwen2.5-coder:7b"]
  {
    var router := new ModelRouter();
    router.AddUserPreference("alice", "custom-model");
    ms := router.ListModels();
    ThreeSorted("custom-model", "gpt-oss:20b", "qwen2.5-coder:7b");
    PairValues(router.taskMapping, "model1", "gpt-oss:20b", "model2", "qwen2.5-coder:7b");
    ListThree(router, "custom-model", "gpt-oss:20b", "qwen2.5-coder:7b");
  }

  /** The values of a two-entry map. */
  lemma PairValues(m: map<string, string>, k1: string, v1: string, k2: string, v2: string)
    requires k1 != k2 && m == map[k1 := v1, k2 := v2]
    ensures m.Values == {v1, v2}
  {
    assert m[k1] == v1 && m[k2] == v2;
  }

  /** A router whose tables name three models, the user table only the
      first, lists them in order. */
  lemma ListThree(r: ModelRouter, a: string, b: string, c: string)
    requires StrictlySorted([a, b, c])
    requires r.taskMapping.Values == {b, c} && r.userMapping == map["alice" := a]
    ensures r.ListModels() == [a, b, c]
  {
    assert r.userMapping["alice"] == a;
    assert r.userMapping.Values == {a};
    ListModelsIs(r, [a, b, c]);
  }

  /** The three model names, in order. */
  lemma ThreeSorted(a: string, b: string, c: string)
    requires a == "custom-model" && b == "gpt-oss:20b" && c == "qwen2.5-coder:7b"
    ensures StrictlySorted([a, b, c])
  {
    assert StrLess(a, b) && StrLess(b, c);
    StrLessTransitive(a, b, c);
  }
}
