/**
 * Michie::Helpers.ivar_name: the name of the instance variable that caches
 * one memoized method, derived from the method name and the memoization
 * prefix. Method names ending in `?` or `!` cannot be spelled as instance
 * variables, so those markers are replaced by `_query` and `_bang`.
 *
 * Method names are assumed to contain no newline, so Ruby's `\Z` anchor is
 * simply the end of the string.
 */
module Helpers {
  import opened Results

  predicate StartsWith(s: string, head: string) {
    |head| <= |s| && s[..|head|] == head
  }

  predicate EndsWith(s: string, tail: string) {
    |tail| <= |s| && s[|s| - |tail|..] == tail
  }

  /** The instance-variable name under which `name` is cached with `prefix`. */
  function IvarName(name: string, prefix: string): (r: string)
    ensures !EndsWith(name, "?") && !EndsWith(name, "!") ==> r == "@" + prefix + "_" + name
    ensures EndsWith(name, "?") ==> r == "@" + prefix + "_" + name[..|name| - 1] + "_query"
    ensures EndsWith(name, "!") ==> r == "@" + prefix + "_" + name[..|name| - 1] + "_bang"
  {
    var s := prefix + "_" + name;
    EndsWithJoin(prefix + "_", name);
    if EndsWith(s, "?") then "@" + s[..|s| - 1] + "_query"
    else if EndsWith(s, "!") then "@" + s[..|s| - 1] + "_bang"
    else "@" + s
  }

  /** Joining a head that ends in `_` does not change which marker the name ends with. */
  lemma EndsWithJoin(head: string, name: string)
    requires |head| > 0 && head[|head| - 1] == '_'
    ensures EndsWith(head + name, "?") <==> EndsWith(name, "?")
    ensures EndsWith(head + name, "!") <==> EndsWith(name, "!")
    ensures |name| > 0 ==> (head + name)[..|head + name| - 1] == head + name[..|name| - 1]
  {
    var s := head + name;
    if |name| > 0 {
      assert s[|s| - 1..] == [name[|name| - 1]] == name[|name| - 1..];
      assert s[..|s| - 1] == head + name[..|name| - 1];
    } else {
      assert s[|s| - 1..] == "_";
    }
  }

  /** Names whose slot cannot be confused with the slot of a `?` or `!` name. */
  predicate Unambiguous(name: string) {
    !EndsWith(name, "_query") && !EndsWith(name, "_bang")
  }

  /**
   * Reads a slot name back as a method name: the inverse of IvarName on
   * unambiguous names.
   */
  function NameOfIvar(slot: string, prefix: string): Option<string> {
    var head := "@" + prefix + "_";
    if !StartsWith(slot, head) then None
    else
      var rest := slot[|head|..];
      if EndsWith(rest, "_query") then Some(rest[..|rest| - 6] + "?")
      else if EndsWith(rest, "_bang") then Some(rest[..|rest| - 5] + "!")
      else Some(rest)
  }

  /** Splitting a slot into its head and the part derived from the method name. */
  lemma HeadAndRest(head: string, rest: string)
    ensures StartsWith(head + rest, head)
    ensures (head + rest)[|head|..] == rest
  {
    assert (head + rest)[..|head|] == head;
  }

  lemma EndsWithAppend(stem: string, tail: string)
    ensures EndsWith(stem + tail, tail)
    ensures (stem + tail)[..|stem + tail| - |tail|] == stem
  {
    assert (stem + tail)[|stem + tail| - |tail|..] == tail;
  }

  /** Every unambiguous name is recovered from its slot. */
  lemma {:induction false} NameOfIvarRoundTrip(name: string, prefix: string)
    requires Unambiguous(name)
    ensures NameOfIvar(IvarName(name, prefix), prefix) == Some(name)
  {
    var head := "@" + prefix + "_";
    var slot := IvarName(name, prefix);
    if EndsWith(name, "?") {
      var stem := name[..|name| - 1];
      assert slot == head + (stem + "_query");
      HeadAndRest(head, stem + "_query");
      EndsWithAppend(stem, "_query");
      assert stem + "?" == name;
    } else if EndsWith(name, "!") {
      var stem := name[..|name| - 1];
      assert slot == head + (stem + "_bang");
      HeadAndRest(head, stem + "_bang");
      EndsWithAppend(stem, "_bang");
      var rest := stem + "_bang";
      assert rest[|rest| - 1] == 'g';
      assert !EndsWith(rest, "_query");
      assert stem + "!" == name;
    } else {
      assert slot == head + name;
      HeadAndRest(head, name);
    }
  }

  /** On unambiguous names, distinct methods never share a slot. */
  lemma IvarNameInjective(a: string, b: string, prefix: string)
    requires Unambiguous(a) && Unambiguous(b)
    requires IvarName(a, prefix) == IvarName(b, prefix)
    ensures a == b
  {
    NameOfIvarRoundTrip(a, prefix);
    NameOfIvarRoundTrip(b, prefix);
  }

  /** `x?` and the plain method `x_query` are cached in the same slot. */
  lemma QueryCollision(stem: string, prefix: string)
    ensures stem + "?" != stem + "_query"
    ensures IvarName(stem + "?", prefix) == IvarName(stem + "_query", prefix)
  {
    var q := stem + "?";
    assert q[|q| - 1..] == "?";
    assert q[..|q| - 1] == stem;
    var p := stem + "_query";
    assert |p| >= 6;
    assert p[|p| - 1] == 'y';
    assert !EndsWith(p, "?") && !EndsWith(p, "!");
  }

  /** `x!` and the plain method `x_bang` are cached in the same slot. */
  lemma BangCollision(stem: string, prefix: string)
    ensures stem + "!" != stem + "_bang"
    ensures IvarName(stem + "!", prefix) == IvarName(stem + "_bang", prefix)
  {
    var q := stem + "!";
    assert q[|q| - 1..] == "!";
    assert q[..|q| - 1] == stem;
    var p := stem + "_bang";
    assert |p| >= 5;
    assert p[|p| - 1] == 'g';
    assert !EndsWith(p, "?") && !EndsWith(p, "!");
  }

  /** A plain name, its `?` form and its `!` form occupy three distinct slots. */
  lemma MarkedVariantsDistinct(x: string, prefix: string)
    ensures IvarName(x, prefix) != IvarName(x + "?", prefix)
    ensures IvarName(x, prefix) != IvarName(x + "!", prefix)
    ensures IvarName(x + "?", prefix) != IvarName(x + "!", prefix)
  {
    var q := x + "?";
    var b := x + "!";
    assert q[|q| - 1..] == "?" && q[..|q| - 1] == x;
    assert b[|b| - 1..] == "!" && b[..|b| - 1] == x;
    var head := "@" + prefix + "_";
    var n := |head| + |x|;
    assert IvarName(q, prefix) == head + x + "_query";
    assert IvarName(b, prefix) == head + x + "_bang";
    if EndsWith(x, "?") {
      // Same length as the `!` form; they differ just after the stem.
      var y := x[..|x| - 1];
      assert IvarName(x, prefix) == head + y + "_query";
      assert (head + y + "_query")[|head| + |y|] == '_';
      assert (head + x + "_bang")[|head| + |y|] == '?';
    } else if EndsWith(x, "!") {
      assert |IvarName(x, prefix)| == n + 4;
    } else {
      assert |IvarName(x, prefix)| == n;
    }
  }

  /** Slots from different prefixes can coincide: the prefix is not delimited. */
  lemma PrefixCollision()
    ensures IvarName("b_c", "a") == IvarName("c", "a_b") == "@a_b_c"
  {
    assert !EndsWith("b_c", "?") && !EndsWith("b_c", "!");
    assert !EndsWith("c", "?") && !EndsWith("c", "!");
  }

  /** Two names share a slot exactly when one is the `?`/`!` form of the other's `_query`/`_bang` spelling. */
  predicate Aliases(a: string, b: string) {
    || (EndsWith(a, "?") && b == a[..|a| - 1] + "_query")
    || (EndsWith(a, "!") && b == a[..|a| - 1] + "_bang")
  }

  /** The unambiguous name that shares a slot with `a`. */
  function Canonical(a: string): (c: string)
    ensures Unambiguous(c)
  {
    if EndsWith(a, "_query") then
      var c := a[..|a| - 6] + "?";
      assert c[|c| - 1] == '?';
      c
    else if EndsWith(a, "_bang") then
      var c := a[..|a| - 5] + "!";
      assert c[|c| - 1] == '!';
      c
    else a
  }

  lemma CanonicalSameSlot(a: string, prefix: string)
    ensures IvarName(Canonical(a), prefix) == IvarName(a, prefix)
  {
    if EndsWith(a, "_query") {
      var stem := a[..|a| - 6];
      assert a == stem + "_query";
      QueryCollision(stem, prefix);
    } else if EndsWith(a, "_bang") {
      var stem := a[..|a| - 5];
      assert a == stem + "_bang";
      BangCollision(stem, prefix);
    }
  }

  lemma CanonicalAliases(a: string)
    requires !Unambiguous(a)
    ensures Aliases(Canonical(a), a)
  {
    var c := Canonical(a);
    if EndsWith(a, "_query") {
      var stem := a[..|a| - 6];
      assert c == stem + "?";
      assert c[|c| - 1..] == "?" && c[..|c| - 1] == stem;
      assert a == stem + "_query";
    } else {
      var stem := a[..|a| - 5];
      assert c == stem + "!";
      assert c[|c| - 1..] == "!" && c[..|c| - 1] == stem;
      assert a == stem + "_bang";
    }
  }

  lemma CanonicalInjectiveOnAmbiguous(a: string, b: string)
    requires !Unambiguous(a) && !Unambiguous(b)
    requires Canonical(a) == Canonical(b)
    ensures a == b
  {
    CanonicalAliases(a);
    CanonicalAliases(b);
  }

  /**
   * The complete collision picture for one prefix: two method names share a
   * slot if and only if they are equal or one is the marked alias of the other.
   */
  lemma {:induction false} SameSlotIff(a: string, b: string, prefix: string)
    ensures IvarName(a, prefix) == IvarName(b, prefix) <==> a == b || Aliases(a, b) || Aliases(b, a)
  {
    if Aliases(a, b) {
      var stem := a[..|a| - 1];
      if EndsWith(a, "?") {
        assert a == stem + "?";
        QueryCollision(stem, prefix);
      } else {
        assert a == stem + "!";
        BangCollision(stem, prefix);
      }
    } else if Aliases(b, a) {
      var stem := b[..|b| - 1];
      if EndsWith(b, "?") {
        assert b == stem + "?";
        QueryCollision(stem, prefix);
      } else {
        assert b == stem + "!";
        BangCollision(stem, prefix);
      }
    } else if IvarName(a, prefix) == IvarName(b, prefix) {
      CanonicalSameSlot(a, prefix);
      CanonicalSameSlot(b, prefix);
      IvarNameInjective(Canonical(a), Canonical(b), prefix);
      if Unambiguous(a) && Unambiguous(b) {
      } else if Unambiguous(a) {
        CanonicalAliases(b);
      } else if Unambiguous(b) {
        CanonicalAliases(a);
      } else {
        CanonicalInjectiveOnAmbiguous(a, b);
      }
    }
  }
}
