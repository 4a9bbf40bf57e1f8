/**
 * The resource directory: the five destinations the application is
 * configured with, each a type tag ("Q" for a queue, "T" for a topic), a code
 * that names the destination on the broker, and a display name.
 */
module Resources {
  import opened Wrappers

  const QueueType := "Q"
  const TopicType := "T"

  datatype Resource = Resource(kind: string, code: string, name: string)

  /** The enum constants in declaration order, which is the order `values()` yields them. */
  function Values(): seq<Resource>
  {
    [Resource("Q", "QUEUE_001", "QUEUE 001 in ActiveMQ"),
     Resource("Q", "QUEUE_002", "QUEUE 002 in ActiveMQ"),
     Resource("T", "TOPIC_001", "TOPIC 001 in ActiveMQ"),
     Resource("T", "TOPIC_002", "TOPIC 002 in ActiveMQ"),
     Resource("T", "TOPIC_003", "TOPIC 003 in ActiveMQ")]
  }

  /** The first resource of `rs` whose code equals `code`, or none. */
  function FindByCode(rs: seq<Resource>, code: string): (r: Option<Resource>)
    ensures r.None? <==> forall i :: 0 <= i < |rs| ==> rs[i].code != code
    ensures r.Some? ==> exists i :: 0 <= i < |rs| && rs[i] == r.value && r.value.code == code
                          && forall j :: 0 <= j < i ==> rs[j].code != code
  {
    if rs == [] then None
    else if rs[0].code == code then Some(rs[0])
    else
      var r := FindByCode(rs[1..], code);
      assert r.Some? ==> exists i :: 0 <= i < |rs[1..]| && rs[1..][i] == r.value && forall j :: 0 <= j < i ==> rs[1..][j].code != code;
      r
  }

  /**
   * `getResourceByCode`: the configured resource with the given code; a null
   * code equals no code, so it finds nothing, as does an unknown one.
   */
  function ResourceByCode(code: Option<string>): (r: Option<Resource>)
    ensures code.None? ==> r.None?
  {
    match code
    case None => None
    case Some(c) => FindByCode(Values(), c)
  }

  /** The five codes are pairwise distinct. */
  lemma CodesDistinct()
    ensures forall i, j :: 0 <= i < j < |Values()| ==> Values()[i].code != Values()[j].code
  {
  }

  /** Every configured resource is found by its own code. */
  lemma ResourceByCodeRoundTrip(i: nat)
    requires i < |Values()|
    ensures ResourceByCode(Some(Values()[i].code)) == Some(Values()[i])
  {
    CodesDistinct();
  }

  /** A code that no resource has, and a null code, find nothing; every found resource carries the code asked for. */
  lemma ResourceByCodeFinds(code: Option<string>)
    ensures ResourceByCode(code).Some? <==> code.Some? && exists i :: 0 <= i < |Values()| && Values()[i].code == code.value
    ensures ResourceByCode(code).Some? ==> ResourceByCode(code).value in Values() && ResourceByCode(code).value.code == code.value
  {
  }

  /** The two queues are tagged "Q", the three topics "T", and no other tag occurs. */
  lemma ResourceKinds()
    ensures forall r :: r in Values() ==> r.kind == QueueType || r.kind == TopicType
    ensures forall r :: r in Values() ==> (r.kind == QueueType <==> r.code in {"QUEUE_001", "QUEUE_002"})
  {
  }

  /** The codes, one per resource. */
  function Codes(rs: seq<Resource>): set<string>
  {
    set r | r in rs :: r.code
  }

  /** The code-to-name map of `rs`, filled in order (a later code overwrites an earlier one). */
  function NameMap(rs: seq<Resource>): map<string, string>
  {
    if rs == [] then map[] else NameMap(rs[..|rs| - 1])[rs[|rs| - 1].code := rs[|rs| - 1].name]
  }

  /** The map's keys are the codes of `rs`. */
  lemma {:induction false} NameMapKeys(rs: seq<Resource>)
    ensures NameMap(rs).Keys == Codes(rs)
  {
    if rs != [] {
      var n := |rs| - 1;
      NameMapKeys(rs[..n]);
      assert rs == rs[..n] + [rs[n]];
      assert Codes(rs) == Codes(rs[..n]) + {rs[n].code};
    }
  }

  /** With pairwise distinct codes, each resource's code is bound to its own name. */
  lemma {:induction false} NameMapValue(rs: seq<Resource>, i: nat)
    requires forall i, j :: 0 <= i < j < |rs| ==> rs[i].code != rs[j].code
    requires i < |rs|
    ensures rs[i].code in NameMap(rs) && NameMap(rs)[rs[i].code] == rs[i].name
  {
    var n := |rs| - 1;
    if i < n {
      NameMapValue(rs[..n], i);
    }
  }

  /** With pairwise distinct codes, the map has one entry per resource. */
  lemma {:induction false} NameMapSize(rs: seq<Resource>)
    requires forall i, j :: 0 <= i < j < |rs| ==> rs[i].code != rs[j].code
    ensures |NameMap(rs)| == |rs|
  {
    if rs != [] {
      var n := |rs| - 1;
      NameMapSize(rs[..n]);
      NameMapKeys(rs[..n]);
    }
  }

  /** With pairwise distinct codes, the map has one entry per resource, binding its code to its name. */
  lemma NameMapSpec(rs: seq<Resource>)
    requires forall i, j :: 0 <= i < j < |rs| ==> rs[i].code != rs[j].code
    ensures NameMap(rs).Keys == Codes(rs)
    ensures forall r :: r in rs ==> NameMap(rs)[r.code] == r.name
    ensures |NameMap(rs)| == |rs|
  {
    NameMapKeys(rs);
    NameMapSize(rs);
    forall r | r in rs
      ensures NameMap(rs)[r.code] == r.name
    {
      var i :| 0 <= i < |rs| && rs[i] == r;
      NameMapValue(rs, i);
    }
  }

  /**
   * `getConfiguredResources`: a fresh map from each resource's code to its
   * display name, filled one resource at a time.
   */
  method GetConfiguredResources() returns (configured: map<string, string>)
    ensures configured.Keys == Codes(Values())
    ensures forall r :: r in Values() ==> configured[r.code] == r.name
    ensures |configured| == |Values()|
  {
    var rs := Values();
    configured := map[];
    for i := 0 to |rs|
      invariant configured == NameMap(rs[..i])
    {
      assert rs[..i + 1][..i] == rs[..i];
      configured := configured[rs[i].code := rs[i].name];
    }
    assert rs[..|rs|] == rs;
    CodesDistinct();
    NameMapSpec(rs);
  }
}
