/** The command sequence `Machinekit.home` hands to the sequencer: the
    manual-mode commands one per batch, then for every homing group (the
    axes sharing a `home_sequence` value), in ascending order of that value,
    one batch homing the group's unhomed axes together followed by one
    wait-until-homed batch per axis of the group, then the MDI-mode batch and
    the command that zeroes the G54 offsets. */
module Homing {
  import opened Util
  import opened Commands

  /** An entry of `status['motion.axis']`. */
  datatype MotionAxis = MotionAxis(index: int, homed: int)

  /** An entry of `status['config.axis']`. */
  datatype ConfigAxis = ConfigAxis(index: int, homeSequence: int)

  const ZeroOffsets := "G10 L20 P0 X0 Y0 Z0"

  /** `[axis.index for axis in status['motion.axis'] if not axis.homed]` */
  function ToHome(axes: seq<MotionAxis>): (r: seq<int>)
    ensures forall i :: i in r <==> exists k :: 0 <= k < |axes| && axes[k].homed == 0 && axes[k].index == i
  {
    if axes == [] then []
    else
      var init := axes[..|axes| - 1];
      var a := axes[|axes| - 1];
      assert forall k :: 0 <= k < |init| ==> init[k] == axes[k];
      ToHome(init) + (if a.homed == 0 then [a.index] else [])
  }

  /** The `order` dictionary after the loop over `config.axis`: each
      configured axis that is to be homed is appended to the batch of its
      `home_sequence`. */
  function Groups(config: seq<ConfigAxis>, toHome: seq<int>): map<int, seq<int>>
  {
    if config == [] then map[]
    else
      var m := Groups(config[..|config| - 1], toHome);
      var a := config[|config| - 1];
      if a.index in toHome then
        m[a.homeSequence := (if a.homeSequence in m then m[a.homeSequence] else []) + [a.index]]
      else m
  }

  /** Reference definition of one group: the indices of the configured axes
      of that `home_sequence` that are to be homed, in configuration order. */
  function Members(config: seq<ConfigAxis>, toHome: seq<int>, key: int): seq<int>
  {
    if config == [] then []
    else
      var a := config[|config| - 1];
      Members(config[..|config| - 1], toHome, key)
        + (if a.index in toHome && a.homeSequence == key then [a.index] else [])
  }

  /** `order` has a batch for exactly the `home_sequence` values of the axes
      to home, and that batch is the group's members in configuration order. */
  lemma {:induction false} GroupsAreMembers(config: seq<ConfigAxis>, toHome: seq<int>)
    ensures forall key :: key in Groups(config, toHome) <==> Members(config, toHome, key) != []
    ensures forall key :: key in Groups(config, toHome) ==> Groups(config, toHome)[key] == Members(config, toHome, key)
  {
    if config != [] {
      GroupsAreMembers(config[..|config| - 1], toHome);
    }
  }

  /** A member of a group is an axis to home, configured in that group. */
  lemma {:induction false} MembersSpec(config: seq<ConfigAxis>, toHome: seq<int>, key: int)
    ensures forall i :: i in Members(config, toHome, key) <==>
      exists k :: 0 <= k < |config| && config[k].index == i && i in toHome && config[k].homeSequence == key
  {
    if config != [] {
      var init := config[..|config| - 1];
      MembersSpec(init, toHome, key);
      assert forall k :: 0 <= k < |init| ==> init[k] == config[k];
    }
  }

  /** The keys of `order` in the order the loop first inserts them (the
      iteration order of a Python dictionary). */
  function KeyOrder(config: seq<ConfigAxis>, toHome: seq<int>): (r: seq<int>)
    ensures Distinct(r)
    ensures forall key :: key in r <==> key in Groups(config, toHome)
  {
    if config == [] then []
    else
      var ks := KeyOrder(config[..|config| - 1], toHome);
      var a := config[|config| - 1];
      if a.index in toHome && a.homeSequence !in ks then ks + [a.homeSequence] else ks
  }

  predicate Ascending(s: seq<int>) {
    forall i, j :: 0 <= i < j < |s| ==> s[i] < s[j]
  }

  /** Insertion of a new key into an ascending list. */
  function Insert(s: seq<int>, x: int): (r: seq<int>)
    requires Ascending(s) && x !in s
    ensures Ascending(r) && |r| == |s| + 1
    ensures forall y :: y in r <==> y in s || y == x
  {
    if s == [] then [x]
    else if x < s[0] then [x] + s
    else
      var t := Insert(s[1..], x);
      assert forall y :: y in t ==> s[0] < y by {
        forall y | y in t ensures s[0] < y {
          if y != x {
            var k :| 0 <= k < |s[1..]| && s[1..][k] == y;
            assert s[1 + k] == y;
          }
        }
      }
      assert forall i :: 0 <= i < |t| ==> t[i] in t;
      [s[0]] + t
  }

  /** `sorted(keys)` for distinct keys: ascending, the same keys. */
  function Sort(s: seq<int>): (r: seq<int>)
    requires Distinct(s)
    ensures Ascending(r) && |r| == |s|
    ensures forall y :: y in r <==> y in s
  {
    if s == [] then []
    else
      var init := s[..|s| - 1];
      assert forall i, j :: 0 <= i < j < |init| ==> init[i] == s[i] && init[j] == s[j];
      assert s[|s| - 1] !in init;
      Insert(Sort(init), s[|s| - 1])
  }

  /** `[MKCommandAxisHome(index, True) for index in batch]` */
  function HomeBatch(batch: seq<int>): (r: Batch)
    ensures |r| == |batch| && forall k :: 0 <= k < |r| ==> r[k] == AxisHome(batch[k], true)
  {
    seq(|batch|, k requires 0 <= k < |batch| => AxisHome(batch[k], true))
  }

  /** The batches for one group: home all its axes together, then wait for
      each of them, one batch each. */
  function Phase(batch: seq<int>): (r: seq<Batch>)
    ensures |r| == 1 + |batch| && r[0] == HomeBatch(batch)
    ensures forall j :: 0 <= j < |batch| ==> r[1 + j] == [WaitHomed(batch[j])]
  {
    [HomeBatch(batch)] + seq(|batch|, k requires 0 <= k < |batch| => [WaitHomed(batch[k])])
  }

  /** The phases of the groups of `keys`, in that order. */
  function Phases(order: map<int, seq<int>>, keys: seq<int>): seq<Batch>
    requires forall k :: 0 <= k < |keys| ==> keys[k] in order
  {
    if keys == [] then []
    else Phases(order, keys[..|keys| - 1]) + Phase(order[keys[|keys| - 1]])
  }

  /** The phases of the first `n` keys open the phases of all of them. */
  lemma {:induction false} PhasesPrefix(order: map<int, seq<int>>, keys: seq<int>, n: nat)
    requires forall k :: 0 <= k < |keys| ==> keys[k] in order
    requires n <= |keys|
    ensures var front := Phases(order, keys[..n]);
      |front| <= |Phases(order, keys)| && Phases(order, keys)[..|front|] == front
    decreases |keys|
  {
    if n < |keys| {
      var init := keys[..|keys| - 1];
      assert init[..n] == keys[..n];
      PhasesPrefix(order, init, n);
    } else {
      assert keys[..n] == keys;
    }
  }

  /** The batches of `group` sit at offset `o` of `plan`: first the batch
      homing all of its axes, then one wait batch per axis, in order. */
  predicate GroupAt(plan: seq<Batch>, o: nat, group: seq<int>) {
    && o + 1 + |group| <= |plan|
    && plan[o] == HomeBatch(group)
    && forall j :: 0 <= j < |group| ==> plan[o + 1 + j] == [WaitHomed(group[j])]
  }

  /** Where the phase of each key sits: the group of `keys[i]` starts at
      the length of the phases before it, and the next group starts right
      after it, so the groups follow one another in the order of `keys`
      without overlapping. */
  lemma {:induction false} PhasesLayout(order: map<int, seq<int>>, keys: seq<int>, i: nat)
    requires forall k :: 0 <= k < |keys| ==> keys[k] in order
    requires i < |keys|
    ensures var o := |Phases(order, keys[..i])|;
      && o + 1 + |order[keys[i]]| == |Phases(order, keys[..i + 1])|
      && GroupAt(Phases(order, keys), o, order[keys[i]])
  {
    var front := keys[..i + 1];
    var before, group, ph := Phases(order, keys[..i]), order[keys[i]], Phases(order, keys);
    var p := Phase(group);
    assert front[..i] == keys[..i] && front[i] == keys[i];
    assert Phases(order, front) == before + p;
    PhasesPrefix(order, keys, i + 1);
    PrefixPart(ph, before, p);
  }

  /** Indexing into a prefix made of two parts lands in the second part. */
  lemma PrefixPart<T>(whole: seq<T>, pre: seq<T>, mid: seq<T>)
    requires |pre| + |mid| <= |whole| && whole[..|pre| + |mid|] == pre + mid
    ensures forall d :: 0 <= d < |mid| ==> whole[|pre| + d] == mid[d]
  {
    forall d | 0 <= d < |mid| ensures whole[|pre| + d] == mid[d] {
      assert whole[|pre| + d] == whole[..|pre| + |mid|][|pre| + d];
    }
  }

  /** The whole sequence `home()` sends; `manual` and `mdi` are what
      `MKUtils.taskModeManual` and `MKUtils.taskModeMDI` return. */
  function HomePlan(manual: seq<Cmd>, mdi: seq<Cmd>, motion: seq<MotionAxis>, config: seq<ConfigAxis>): seq<Batch>
  {
    var toHome := ToHome(motion);
    var order := Groups(config, toHome);
    Singletons(manual) + Phases(order, HomeOrder(config, toHome)) + [mdi] + [[TaskExecute(ZeroOffsets)]]
  }

  /** `sorted(order)`: the keys of `order` in ascending order, each new
      `home_sequence` inserted in its place as the configuration is walked
      (SortedKeys shows this is sorting the keys in insertion order). */
  function HomeOrder(config: seq<ConfigAxis>, toHome: seq<int>): (r: seq<int>)
    ensures Ascending(r)
    ensures forall key :: key in r <==> key in Groups(config, toHome)
  {
    if config == [] then []
    else
      var ks := HomeOrder(config[..|config| - 1], toHome);
      var a := config[|config| - 1];
      if a.index in toHome && a.homeSequence !in ks then Insert(ks, a.homeSequence) else ks
  }

  /** Two ascending sequences with the same elements are equal. */
  lemma {:induction false} AscendingUnique(a: seq<int>, b: seq<int>)
    requires Ascending(a) && Ascending(b)
    requires forall y :: y in a <==> y in b
    ensures a == b
    decreases |a|
  {
    if a != [] { assert a[0] in a; }
    if b != [] { assert b[0] in b; }
    if a != [] && b != [] {
      assert a[0] == b[0] by {
        var j :| 0 <= j < |a| && a[j] == b[0];
        var k :| 0 <= k < |b| && b[k] == a[0];
      }
      forall y ensures y in a[1..] <==> y in b[1..] {
        assert y in a[1..] <==> y in a && y != a[0];
        assert y in b[1..] <==> y in b && y != b[0];
      }
      AscendingUnique(a[1..], b[1..]);
      assert a == [a[0]] + a[1..] && b == [b[0]] + b[1..];
    }
  }

  /** `sorted(order)` as the source computes it: sorting the keys in the
      order they were first inserted gives HomeOrder. */
  lemma SortedKeys(config: seq<ConfigAxis>, toHome: seq<int>)
    ensures Sort(KeyOrder(config, toHome)) == HomeOrder(config, toHome)
  {
    AscendingUnique(Sort(KeyOrder(config, toHome)), HomeOrder(config, toHome));
  }

  /** Every command of the phases of a group homes or waits for one of the
      group's axes. */
  lemma {:induction false} PhasesOnlyMembers(order: map<int, seq<int>>, keys: seq<int>, b: nat, c: nat)
    requires forall k :: 0 <= k < |keys| ==> keys[k] in order
    requires b < |Phases(order, keys)| && c < |Phases(order, keys)[b]|
    ensures var cmd := Phases(order, keys)[b][c];
      && (cmd.AxisHome? || cmd.WaitHomed?)
      && (cmd.AxisHome? ==> cmd.home)
      && exists k :: 0 <= k < |keys| && cmd.index in order[keys[k]]
    decreases |keys|
  {
    var n := |keys| - 1;
    var init := keys[..n];
    var front := Phases(order, init);
    var batch := order[keys[n]];
    var p := Phase(batch);
    if b < |front| {
      PhasesOnlyMembers(order, init, b, c);
      var cmd: Cmd := front[b][c];
      var k :| 0 <= k < |init| && cmd.index in order[init[k]];
      assert init[k] == keys[k];
    } else {
      var d := b - |front|;
      assert Phases(order, keys)[b] == p[d];
      if d == 0 {
        assert p[d][c] == AxisHome(batch[c], true);
      } else {
        assert p[d] == [WaitHomed(batch[d - 1])];
      }
    }
  }

  /** The phases contain the batch homing the whole group of each key. */
  lemma {:induction false} PhasesHomeEveryKey(order: map<int, seq<int>>, keys: seq<int>, i: nat)
    requires forall k :: 0 <= k < |keys| ==> keys[k] in order
    requires i < |keys|
    ensures exists b :: && 0 <= b < |Phases(order, keys)|
                        && Phases(order, keys)[b] == HomeBatch(order[keys[i]])
    decreases |keys|
  {
    var n := |keys| - 1;
    var init := keys[..n];
    var front := Phases(order, init);
    if i == n {
      assert Phases(order, keys)[|front|] == Phase(order[keys[n]])[0];
    } else {
      PhasesHomeEveryKey(order, init, i);
      var b :| 0 <= b < |front| && front[b] == HomeBatch(order[init[i]]);
      assert Phases(order, keys)[b] == front[b];
    }
  }

  /** An axis that is already homed is never homed or waited for: every
      command between the manual-mode batches and the MDI-mode batch homes
      or waits for an unhomed axis that is configured. */
  lemma HomedAxesUntouched(manual: seq<Cmd>, mdi: seq<Cmd>, motion: seq<MotionAxis>, config: seq<ConfigAxis>, b: nat, c: nat)
    requires |manual| <= b < |HomePlan(manual, mdi, motion, config)| - 2
    requires c < |HomePlan(manual, mdi, motion, config)[b]|
    ensures var cmd := HomePlan(manual, mdi, motion, config)[b][c];
      && (cmd.AxisHome? || cmd.WaitHomed?)
      && (exists k :: 0 <= k < |motion| && motion[k].homed == 0 && motion[k].index == cmd.index)
      && (exists k :: 0 <= k < |config| && config[k].index == cmd.index)
  {
    var toHome := ToHome(motion);
    var order := Groups(config, toHome);
    var keys := HomeOrder(config, toHome);
    var ph := Phases(order, keys);
    var plan := HomePlan(manual, mdi, motion, config);
    assert plan == Singletons(manual) + ph + [mdi] + [[TaskExecute(ZeroOffsets)]];
    assert plan[b] == ph[b - |manual|];
    PhasesOnlyMembers(order, keys, b - |manual|, c);
    var cmd: Cmd := ph[b - |manual|][c];
    var i :| 0 <= i < |keys| && cmd.index in order[keys[i]];
    var key := keys[i];
    GroupsAreMembers(config, toHome);
    MembersSpec(config, toHome, key);
  }

  /** The phase of the group of an axis to home homes that axis. */
  lemma GroupHomed(config: seq<ConfigAxis>, toHome: seq<int>, k: nat) returns (b: nat)
    requires k < |config| && config[k].index in toHome
    ensures b < |Phases(Groups(config, toHome), HomeOrder(config, toHome))|
    ensures AxisHome(config[k].index, true) in Phases(Groups(config, toHome), HomeOrder(config, toHome))[b]
  {
    var order := Groups(config, toHome);
    var keys := HomeOrder(config, toHome);
    var key := config[k].homeSequence;
    assert config[k].index in Members(config, toHome, key) by {
      MembersSpec(config, toHome, key);
    }
    assert key in order && order[key] == Members(config, toHome, key) by {
      GroupsAreMembers(config, toHome);
    }
    var i :| 0 <= i < |keys| && keys[i] == key;
    PhasesHomeEveryKey(order, keys, i);
    b :| 0 <= b < |Phases(order, keys)| && Phases(order, keys)[b] == HomeBatch(order[key]);
    var j :| 0 <= j < |order[key]| && order[key][j] == config[k].index;
    assert HomeBatch(order[key])[j] == AxisHome(config[k].index, true);
  }

  /** Every configured axis that is not homed yet is homed, together with
      the rest of its group, in a batch between the manual-mode batches and
      the MDI-mode batch. */
  lemma UnhomedAxesHomed(manual: seq<Cmd>, mdi: seq<Cmd>, motion: seq<MotionAxis>, config: seq<ConfigAxis>, k: nat, m: nat)
    requires k < |config| && m < |motion| && motion[m].homed == 0 && motion[m].index == config[k].index
    ensures exists b :: && |manual| <= b < |HomePlan(manual, mdi, motion, config)| - 2
                        && AxisHome(config[k].index, true) in HomePlan(manual, mdi, motion, config)[b]
  {
    var toHome := ToHome(motion);
    var ph := Phases(Groups(config, toHome), HomeOrder(config, toHome));
    var plan := HomePlan(manual, mdi, motion, config);
    assert config[k].index in toHome;
    var b := GroupHomed(config, toHome, k);
    assert plan == Singletons(manual) + ph + [mdi] + [[TaskExecute(ZeroOffsets)]];
    InMiddle(Singletons(manual), ph, [mdi] + [[TaskExecute(ZeroOffsets)]], b);
    var at := |manual| + b;
    assert |manual| <= at < |plan| - 2 && AxisHome(config[k].index, true) in plan[at];
  }

  /** Indexing past a prefix lands in the middle part. */
  lemma InMiddle<T>(a: seq<T>, m: seq<T>, z: seq<T>, i: nat)
    requires i < |m|
    ensures |a| + i < |a + m + z| && (a + m + z)[|a| + i] == m[i]
  {
  }

  /** The sequence opens with the manual-mode commands one per batch and
      closes with the MDI-mode batch and the offset reset (HomePlanLayout
      places the groups in between). */
  lemma HomePlanFrame(manual: seq<Cmd>, mdi: seq<Cmd>, motion: seq<MotionAxis>, config: seq<ConfigAxis>)
    ensures var plan := HomePlan(manual, mdi, motion, config);
      && |plan| >= |manual| + 2
      && (forall k :: 0 <= k < |manual| ==> plan[k] == [manual[k]])
      && plan[|plan| - 2] == mdi
      && plan[|plan| - 1] == [TaskExecute(ZeroOffsets)]
  {
  }

  /** After the manual-mode batches come the groups in the order of
      HomeOrder (ascending `home_sequence`): the `i`-th group starts at
      offset `|manual| + o` with the batch homing all of its `order` entry
      (by GroupsAreMembers the group's members in configuration order),
      waits for each of them, and the next group starts right after it; the
      last group ends where the MDI-mode batch begins. */
  lemma {:induction false} HomePlanLayout(manual: seq<Cmd>, mdi: seq<Cmd>, motion: seq<MotionAxis>, config: seq<ConfigAxis>, i: nat)
    requires i < |HomeOrder(config, ToHome(motion))|
    ensures var keys := HomeOrder(config, ToHome(motion));
      var order := Groups(config, ToHome(motion));
      var plan := HomePlan(manual, mdi, motion, config);
      var o := |Phases(order, keys[..i])|;
      && |plan| == |manual| + |Phases(order, keys)| + 2
      && o + 1 + |order[keys[i]]| == |Phases(order, keys[..i + 1])|
      && GroupAt(plan, |manual| + o, order[keys[i]])
  {
    var keys := HomeOrder(config, ToHome(motion));
    var order := Groups(config, ToHome(motion));
    PhasesLayout(order, keys, i);
    GroupShift(Singletons(manual), Phases(order, keys), [mdi], [[TaskExecute(ZeroOffsets)]],
               |Phases(order, keys[..i])|, order[keys[i]]);
  }

  /** A group laid out in `m` stays laid out, shifted by `|a|`, in `a + m + y + z`. */
  lemma GroupShift(a: seq<Batch>, m: seq<Batch>, y: seq<Batch>, z: seq<Batch>, o: nat, group: seq<int>)
    requires GroupAt(m, o, group)
    ensures GroupAt(a + m + y + z, |a| + o, group)
  {
    var w := a + m + y + z;
    assert w[|a| + o] == m[o];
    forall j | 0 <= j < |group| ensures w[|a| + o + 1 + j] == [WaitHomed(group[j])] {
      assert w[|a| + o + 1 + j] == m[o + 1 + j];
    }
  }
}
