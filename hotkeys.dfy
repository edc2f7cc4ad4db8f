// The Linux hot-key service: the list of held keys and the combo string that
// names a registered action. Key codes are identified by their enum names
// (what `KeyCode.ToString()` yields).

module HotKeys {
  import opened Wrappers
  import opened DotNet

  /** A registered action, found by its default key combo. */
  datatype HotKeyAction = HotKeyAction(defaultKeyCombo: string)

  const Separator: char := '\0'

  /** The key name with every "Vc" removed. */
  function CleanKey(key: string): (c: string)
    ensures |c| <= |key|
  {
    RemoveAll(key, "Vc")
  }

  /** The cleaned names joined by "\0", in press order. */
  function Combo(keys: seq<string>): string
  {
    if |keys| == 0 then ""
    else if |keys| == 1 then CleanKey(keys[0])
    else Combo(keys[..|keys| - 1]) + [Separator] + CleanKey(keys[|keys| - 1])
  }

  /** The cleaned name of every key. */
  function Cleaned(keys: seq<string>): (r: seq<string>)
    ensures |r| == |keys| && forall i | 0 <= i < |keys| :: r[i] == CleanKey(keys[i])
  {
    if |keys| == 0 then [] else Cleaned(keys[..|keys| - 1]) + [CleanKey(keys[|keys| - 1])]
  }

  /** Cutting a string at every "\0": the inverse of joining. */
  function Split(s: string): (r: seq<string>)
    ensures |r| > 0
  {
    if |s| == 0 then [""]
    else
      var rest := Split(s[1..]);
      if s[0] == Separator then [""] + rest else [[s[0]] + rest[0]] + rest[1..]
  }

  predicate NoSeparator(s: string)
  {
    Separator !in s
  }

  /** A cleaned key name that is free of "\0". */
  predicate Plain(key: string)
  {
    NoSeparator(CleanKey(key))
  }

  lemma {:induction false} SplitPlain(s: string)
    requires NoSeparator(s)
    ensures Split(s) == [s]
    decreases |s|
  {
    if |s| > 0 {
      SplitPlain(s[1..]);
      assert [s[0]] + s[1..] == s;
    }
  }

  lemma {:induction false} SplitAppend(x: string, c: string)
    requires NoSeparator(c)
    ensures Split(x + [Separator] + c) == Split(x) + [c]
    decreases |x|
  {
    var s := x + [Separator] + c;
    if |x| == 0 {
      assert s == [Separator] + c;
      assert s[1..] == c;
      SplitPlain(c);
    } else {
      assert s[1..] == x[1..] + [Separator] + c;
      SplitAppend(x[1..], c);
      var rest := Split(s[1..]);
      assert rest == Split(x[1..]) + [c];
      if x[0] != Separator {
        assert rest[0] == Split(x[1..])[0];
        assert rest[1..] == Split(x[1..])[1..] + [c];
      }
    }
  }

  /** Splitting a combo gives back the cleaned names, in press order. */
  lemma {:induction false} SplitCombo(keys: seq<string>)
    requires |keys| > 0 && forall i | 0 <= i < |keys| :: Plain(keys[i])
    ensures Split(Combo(keys)) == Cleaned(keys)
    decreases |keys|
  {
    if |keys| == 1 {
      SplitPlain(CleanKey(keys[0]));
    } else {
      var init := keys[..|keys| - 1];
      SplitCombo(init);
      SplitAppend(Combo(init), CleanKey(keys[|keys| - 1]));
    }
  }

  /** Two non-empty sets of held keys with the same combo were pressed in the
      same order, up to "Vc". */
  lemma ComboDeterminesOrder(a: seq<string>, b: seq<string>)
    requires |a| > 0 && forall i | 0 <= i < |a| :: Plain(a[i])
    requires |b| > 0 && forall i | 0 <= i < |b| :: Plain(b[i])
    requires Combo(a) == Combo(b)
    ensures Cleaned(a) == Cleaned(b)
  {
    SplitCombo(a);
    SplitCombo(b);
  }

  /** What the builder holds after i of the keys: the combo of those keys,
      followed by "\0" while more keys remain. */
  function Built(keys: seq<string>, i: nat): string
    requires i <= |keys|
  {
    if i == 0 then "" else Combo(keys[..i]) + (if i < |keys| then [Separator] else "")
  }

  /** The first occurrence of `key` removed (`List.Remove`). */
  function RemoveKey(keys: seq<string>, key: string): (r: seq<string>)
    ensures key in keys ==> |r| == |keys| - 1 && multiset(r) == multiset(keys) - multiset{key}
    ensures key !in keys ==> r == keys
    ensures forall x | x in r :: x in keys
  {
    if |keys| == 0 then []
    else
      assert keys == [keys[0]] + keys[1..];
      if keys[0] == key then keys[1..]
      else [keys[0]] + RemoveKey(keys[1..], key)
  }

  predicate Distinct(keys: seq<string>)
  {
    forall i, j | 0 <= i < j < |keys| :: keys[i] != keys[j]
  }

  /** Removal keeps the held keys distinct and leaves the key no longer held. */
  lemma {:induction false} DistinctRemove(keys: seq<string>, key: string)
    requires Distinct(keys)
    ensures Distinct(RemoveKey(keys, key))
    ensures key !in RemoveKey(keys, key)
    decreases |keys|
  {
    if |keys| > 0 {
      var rest := keys[1..];
      assert Distinct(rest) by {
        forall i, j | 0 <= i < j < |rest|
          ensures rest[i] != rest[j]
        {
          assert rest[i] == keys[i + 1] && rest[j] == keys[j + 1];
        }
      }
      assert keys[0] !in rest by {
        forall j | 0 <= j < |rest|
          ensures rest[j] != keys[0]
        {
          assert rest[j] == keys[j + 1];
        }
      }
      if keys[0] != key {
        DistinctRemove(rest, key);
        var r := RemoveKey(keys, key);
        assert r == [keys[0]] + RemoveKey(rest, key);
        forall i, j | 0 <= i < j < |r|
          ensures r[i] != r[j]
        {
          if i == 0 {
            assert r[j] in RemoveKey(rest, key);
          }
        }
      }
    }
  }

  /** Pressing a key not held and then releasing it restores the held list. */
  lemma PressThenRelease(keys: seq<string>, key: string)
    requires key !in keys
    ensures RemoveKey(keys + [key], key) == keys
  {
    if |keys| > 0 {
      assert (keys + [key])[1..] == keys[1..] + [key];
      PressThenRelease(keys[1..], key);
    }
  }

  /** The combo of the default Ctrl+Shift+M keys is the mute action's combo. */
  lemma MuteCombo()
    ensures Combo(["VcLeftControl", "VcLeftShift", "VcM"]) == MuteActionCombo
  {
    var keys := ["VcLeftControl", "VcLeftShift", "VcM"];
    DefaultKeysClean();
    var one := keys[..1];
    var two := keys[..2];
    assert two[..1] == one;
    assert Combo(one) == "LeftControl";
    assert Combo(two) == "LeftControl" + [Separator] + "LeftShift";
    assert Combo(keys) == Combo(two) + [Separator] + "M";
    MuteActionComboParts();
  }

  lemma DefaultKeysClean()
    ensures CleanKey("VcLeftControl") == "LeftControl"
    ensures CleanKey("VcLeftShift") == "LeftShift"
    ensures CleanKey("VcM") == "M"
  {
    CleanVcName("LeftControl");
    CleanVcName("LeftShift");
    CleanVcName("M");
    assert "VcLeftControl" == "Vc" + "LeftControl";
    assert "VcLeftShift" == "Vc" + "LeftShift";
    assert "VcM" == "Vc" + "M";
  }

  /** MuteAction.DefaultKeyCombo. */
  const MuteActionCombo: string := "LeftControl\0LeftShift\0M"

  lemma MuteActionComboParts()
    ensures MuteActionCombo == "LeftControl" + [Separator] + "LeftShift" + [Separator] + "M"
  {
  }

  /** A "Vc"-prefixed key name whose rest has no 'V' cleans to that rest. */
  lemma CleanVcName(s: string)
    requires 'V' !in s
    ensures CleanKey("Vc" + s) == s
  {
    assert ("Vc" + s)[..2] == "Vc";
    assert ("Vc" + s)[2..] == s;
    NoVc(s);
  }

  /** A string without 'V' has nothing to remove. */
  lemma {:induction false} NoVc(s: string)
    requires 'V' !in s
    ensures RemoveAll(s, "Vc") == s
    decreases |s|
  {
    if |s| >= 2 {
      assert s[..2] != "Vc" by { assert s[0] != 'V'; }
      NoVc(s[1..]);
      assert [s[0]] + s[1..] == s;
    }
  }

  class NativeHotKeyService {
    /** The held keys, in press order. */
    var pressed: seq<string>
    /** HotKeyActions, keyed by DefaultKeyCombo. */
    const actions: map<string, HotKeyAction>

    ghost predicate Valid()
      reads this
    {
      Distinct(pressed)
    }

    constructor(actions: map<string, HotKeyAction>)
      ensures this.actions == actions && pressed == [] && Valid()
    {
      this.actions := actions;
      pressed := [];
    }

    /** The StringBuilder loop over the held keys. */
    method BuildCombo() returns (combo: string)
      ensures combo == Combo(pressed)
    {
      combo := "";
      var i := 0;
      while i < |pressed|
        invariant 0 <= i <= |pressed|
        invariant combo == Built(pressed, i)
      {
        var cleanKey := CleanKey(pressed[i]);
        combo := combo + cleanKey + (if i < |pressed| - 1 then [Separator] else "");
        assert pressed[..i + 1][..i] == pressed[..i];
        i := i + 1;
      }
      assert pressed[..i] == pressed;
    }

    /** A newly held key is appended, and the action registered for the new
        combo, if any, is pressed. */
    method OnKeyPressed(key: string) returns (invoked: Option<HotKeyAction>)
      requires Valid()
      modifies this`pressed
      ensures Valid()
      ensures key in old(pressed) ==> pressed == old(pressed) && invoked == None
      ensures key !in old(pressed) ==>
        pressed == old(pressed) + [key]
        && invoked == (if Combo(pressed) in actions then Some(actions[Combo(pressed)]) else None)
    {
      if key in pressed {
        return None;
      }
      pressed := pressed + [key];
      var combo := BuildCombo();
      invoked := if combo in actions then Some(actions[combo]) else None;
    }

    /** The combo is built while the key is still held; then the key is
        removed and the action registered for that combo, if any, released. */
    method OnKeyReleased(key: string) returns (invoked: Option<HotKeyAction>)
      requires Valid()
      modifies this`pressed
      ensures Valid() && key !in pressed
      ensures key !in old(pressed) ==> pressed == old(pressed) && invoked == None
      ensures key in old(pressed) ==>
        pressed == RemoveKey(old(pressed), key)
        && invoked == (if Combo(old(pressed)) in actions then Some(actions[Combo(old(pressed))]) else None)
    {
      if key !in pressed {
        return None;
      }
      var combo := BuildCombo();
      DistinctRemove(pressed, key);
      pressed := RemoveKey(pressed, key);
      invoked := if combo in actions then Some(actions[combo]) else None;
    }
  }
}
