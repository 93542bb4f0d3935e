/**
 * `is_config_complete`: the three fields without which the deployer
 * prompts, and the labels it reports for those that are absent or empty.
 */
module Completeness {
  import opened Values

  /** A field the deployer insists on, with the label it reports when the field is missing. */
  datatype Requirement = Requirement(section: string, key: string, title: string)

  /** The required fields, in the order their labels are reported. */
  const Required: seq<Requirement> := [
    Requirement("ai", "api_key", "AI API key"),
    Requirement("ai", "base_url", "AI API base URL"),
    Requirement("paths", "notebooks_dir", "Notebooks directory")
  ]

  predicate Present(c: Config, r: Requirement)
  {
    Filled(c, r.section, r.key)
  }

  function Labels(reqs: seq<Requirement>): seq<string>
  {
    if reqs == [] then [] else [reqs[0].title] + Labels(reqs[1..])
  }

  /** The labels of the requirements `c` does not meet, in requirement order. */
  function Missing(c: Config, reqs: seq<Requirement>): seq<string>
  {
    if reqs == [] then []
    else (if Present(c, reqs[0]) then [] else [reqs[0].title]) + Missing(c, reqs[1..])
  }

  predicate Complete(c: Config)
  {
    Missing(c, Required) == []
  }

  /** `a` can be obtained from `b` by deleting elements. */
  predicate Subsequence<T(==)>(a: seq<T>, b: seq<T>)
    decreases |b|
  {
    if a == [] then true
    else if b == [] then false
    else if a[0] == b[0] then Subsequence(a[1..], b[1..])
    else Subsequence(a, b[1..])
  }

  predicate DistinctLabels(reqs: seq<Requirement>)
  {
    forall i, j :: 0 <= i < j < |reqs| ==> reqs[i].title != reqs[j].title
  }

  lemma {:induction false} SubsequenceDropFirst<T>(a: seq<T>, b: seq<T>)
    requires a != [] && Subsequence(a, b)
    ensures Subsequence(a[1..], b)
    decreases |b|, 0
  {
    if a[0] != b[0] {
      SubsequenceDropFirst(a, b[1..]);
    }
    SubsequenceExtend(a[1..], b[1..], b[0]);
    assert [b[0]] + b[1..] == b;
  }

  lemma {:induction false} SubsequenceExtend<T>(a: seq<T>, b: seq<T>, x: T)
    requires Subsequence(a, b)
    ensures Subsequence(a, [x] + b)
    decreases |b|, 1
  {
    if a != [] && a[0] == x {
      assert ([x] + b)[1..] == b;
      SubsequenceDropFirst(a, b);
    } else if a != [] {
      assert ([x] + b)[1..] == b;
    }
  }

  /**
   * A label is reported exactly for the requirements that are absent or
   * empty, and the reported labels keep the order of the requirements.
   */
  lemma {:induction false} MissingExactly(c: Config, reqs: seq<Requirement>)
    requires DistinctLabels(reqs)
    ensures forall r :: r in reqs ==> (r.title in Missing(c, reqs) <==> !Present(c, r))
    ensures Subsequence(Missing(c, reqs), Labels(reqs))
  {
    if reqs != [] {
      var rest := reqs[1..];
      assert DistinctLabels(rest) by {
        forall i, j | 0 <= i < j < |rest| ensures rest[i].title != rest[j].title {
          assert rest[i] == reqs[i + 1] && rest[j] == reqs[j + 1];
        }
      }
      MissingExactly(c, rest);
      assert reqs[0].title !in Missing(c, rest) by {
        forall r | r in rest ensures r.title != reqs[0].title {
          var j :| 0 <= j < |rest| && rest[j] == r;
          assert reqs[j + 1] == r;
        }
        MissingLabelsFrom(c, rest);
      }
      forall r | r in reqs
        ensures r.title in Missing(c, reqs) <==> !Present(c, r)
      {
        if r != reqs[0] {
          var j :| 0 <= j < |reqs| && reqs[j] == r;
          assert r in rest by { assert rest[j - 1] == r; }
          if r.title == reqs[0].title {
            assert false;
          }
        }
      }
      if Present(c, reqs[0]) {
        assert Missing(c, reqs) == Missing(c, rest);
        SubsequenceExtend(Missing(c, rest), Labels(rest), reqs[0].title);
      } else {
        assert Missing(c, reqs) == [reqs[0].title] + Missing(c, rest);
      }
    }
  }

  /** Every reported label is the label of one of the requirements. */
  lemma {:induction false} MissingLabelsFrom(c: Config, reqs: seq<Requirement>)
    ensures forall l :: l in Missing(c, reqs) ==> exists r :: r in reqs && r.title == l
  {
    if reqs != [] {
      MissingLabelsFrom(c, reqs[1..]);
      forall l | l in Missing(c, reqs) ensures exists r :: r in reqs && r.title == l {
        if l != reqs[0].title {
          assert l in Missing(c, reqs[1..]);
          var r :| r in reqs[1..] && r.title == l;
          assert r in reqs;
        }
      }
    }
  }

  /** Nothing but the required fields affects the verdict: two configurations that agree on them get the same labels. */
  lemma {:induction false} OnlyRequiredFieldsMatter(c1: Config, c2: Config, reqs: seq<Requirement>)
    requires forall r :: r in reqs ==> (Present(c1, r) <==> Present(c2, r))
    ensures Missing(c1, reqs) == Missing(c2, reqs)
  {
    if reqs != [] {
      assert reqs[0] in reqs;
      OnlyRequiredFieldsMatter(c1, c2, reqs[1..]);
    }
  }

  /** The label list is empty exactly when every requirement is met. */
  lemma {:induction false} NothingMissingIff(c: Config, reqs: seq<Requirement>)
    ensures Missing(c, reqs) == [] <==> forall r :: r in reqs ==> Present(c, r)
  {
    if reqs != [] {
      NothingMissingIff(c, reqs[1..]);
      assert forall r :: r in reqs <==> r == reqs[0] || r in reqs[1..];
    }
  }

  /** A configuration is complete exactly when its API key, base URL and notebooks directory are all present and non-empty. */
  lemma CompleteIff(c: Config)
    ensures Complete(c) <==> Filled(c, "ai", "api_key") && Filled(c, "ai", "base_url") && Filled(c, "paths", "notebooks_dir")
  {
    NothingMissingIff(c, Required);
    assert Required[0] in Required && Required[1] in Required && Required[2] in Required;
  }

  /** The reported labels are among, and in the order of, "AI API key", "AI API base URL", "Notebooks directory". */
  lemma RequiredReportedInOrder(c: Config)
    ensures Subsequence(Missing(c, Required), ["AI API key", "AI API base URL", "Notebooks directory"])
    ensures forall r :: r in Required ==> (r.title in Missing(c, Required) <==> !Present(c, r))
  {
    MissingExactly(c, Required);
    assert Labels(Required) == ["AI API key", "AI API base URL", "Notebooks directory"];
  }

  /** `is_config_complete`: collects the labels of the missing fields and reports whether there are none. */
  method IsConfigComplete(c: Config) returns (complete: bool, missing: seq<string>)
    ensures missing == Missing(c, Required)
    ensures complete <==> missing == []
  {
    missing := [];
    if !Filled(c, "ai", "api_key") {
      missing := missing + ["AI API key"];
    }
    if !Filled(c, "ai", "base_url") {
      missing := missing + ["AI API base URL"];
    }
    if !Filled(c, "paths", "notebooks_dir") {
      missing := missing + ["Notebooks directory"];
    }
    complete := |missing| == 0;
    var r2 := Required[1..][1..];
    assert Missing(c, r2) == (if Present(c, Required[2]) then [] else ["Notebooks directory"]) by {
      assert r2[1..] == [];
    }
  }
}
