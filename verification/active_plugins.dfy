/**
  The 'active_plugins' option is the ordered list of plugin basenames the host
  loads. At shutdown the plugin moves its own basename to the front so that it
  loads first.
 */
module ActivePlugins {

  /** The position array_search() reports: the first occurrence. */
  function FirstIndex(plugins: seq<string>, hook: string): (i: nat)
    requires hook in plugins
    ensures i < |plugins| && plugins[i] == hook && hook !in plugins[..i]
  {
    if plugins[0] == hook then 0
    else
      assert plugins == [plugins[0]] + plugins[1..];
      var j := FirstIndex(plugins[1..], hook);
      assert plugins[..j + 1] == [plugins[0]] + plugins[1..][..j];
      j + 1
  }

  /**
    The list after the shutdown reorder: unchanged unless the hook is present
    and not already first; otherwise its first occurrence is unset and the
    hook is unshifted onto the front.
   */
  function MoveToFront(plugins: seq<string>, hook: string): (r: seq<string>)
    ensures |r| == |plugins|
    ensures multiset(r) == multiset(plugins)
    ensures hook in plugins ==> r[0] == hook
    ensures hook !in plugins || plugins[0] == hook ==> r == plugins
  {
    if |plugins| > 0 && hook in plugins && hook != plugins[0] then
      var i := FirstIndex(plugins, hook);
      assert plugins == plugins[..i] + [hook] + plugins[i + 1..];
      [hook] + plugins[..i] + plugins[i + 1..]
    else plugins
  }

  /**
    Element by element: the hook at the front, the entries before its first
    occurrence shifted one place right, every entry after it where it was.
   */
  lemma MoveToFrontShape(plugins: seq<string>, hook: string, j: nat)
    requires hook in plugins && j < |plugins|
    ensures var i := FirstIndex(plugins, hook);
            MoveToFront(plugins, hook)[j] == if j == 0 then hook else if j <= i then plugins[j - 1] else plugins[j]
  {
    var i := FirstIndex(plugins, hook);
    if i > 0 {
      var front := [hook] + plugins[..i];
      assert MoveToFront(plugins, hook) == front + plugins[i + 1..];
      if j <= i {
        assert MoveToFront(plugins, hook)[j] == front[j];
      } else {
        assert MoveToFront(plugins, hook)[j] == plugins[i + 1..][j - i - 1];
      }
    }
  }

  /** Doing the reorder again on the next shutdown changes nothing. */
  lemma MoveToFrontIdempotent(plugins: seq<string>, hook: string)
    ensures MoveToFront(MoveToFront(plugins, hook), hook) == MoveToFront(plugins, hook)
  {
    if hook in plugins {
      assert MoveToFront(plugins, hook)[0] == hook;
    }
  }

  /** Entries other than the hook keep their relative order: with the hook's occurrences removed, both lists are equal. */
  function WithoutHook(plugins: seq<string>, hook: string): (r: seq<string>)
    ensures hook !in r
    ensures forall p :: p in r <==> p in plugins && p != hook
  {
    if plugins == [] then []
    else (if plugins[0] == hook then [] else [plugins[0]]) + WithoutHook(plugins[1..], hook)
  }

  lemma {:induction false} WithoutHookConcat(a: seq<string>, b: seq<string>, hook: string)
    ensures WithoutHook(a + b, hook) == WithoutHook(a, hook) + WithoutHook(b, hook)
  {
    if a != [] {
      assert (a + b)[1..] == a[1..] + b;
      WithoutHookConcat(a[1..], b, hook);
    } else {
      assert a + b == b;
    }
  }

  lemma MoveToFrontKeepsOthersInOrder(plugins: seq<string>, hook: string)
    ensures WithoutHook(MoveToFront(plugins, hook), hook) == WithoutHook(plugins, hook)
  {
    if |plugins| > 0 && hook in plugins && hook != plugins[0] {
      var i := FirstIndex(plugins, hook);
      var before, after := plugins[..i], plugins[i + 1..];
      assert WithoutHook([hook], hook) == [] by {
        assert [hook][1..] == [];
      }
      calc {
        WithoutHook(plugins, hook);
        { assert plugins == before + ([hook] + after); WithoutHookConcat(before, [hook] + after, hook); }
        WithoutHook(before, hook) + WithoutHook([hook] + after, hook);
        { WithoutHookConcat([hook], after, hook); }
        WithoutHook(before, hook) + WithoutHook(after, hook);
        { WithoutHookConcat([hook], before, hook); }
        WithoutHook([hook] + before, hook) + WithoutHook(after, hook);
        { WithoutHookConcat([hook] + before, after, hook); }
        WithoutHook([hook] + before + after, hook);
      }
    }
  }

  /** in_array() and array_search() in one scan: whether the hook is present and where it first is. */
  method Search(plugins: seq<string>, hook: string) returns (found: bool, i: nat)
    ensures found <==> hook in plugins
    ensures found ==> i == FirstIndex(plugins, hook)
  {
    i := 0;
    while i < |plugins|
      invariant i <= |plugins|
      invariant hook !in plugins[..i]
    {
      if plugins[i] == hook {
        found := true;
        assert plugins[FirstIndex(plugins, hook)] == hook;
        return;
      }
      assert plugins[..i + 1] == plugins[..i] + [plugins[i]];
      i := i + 1;
    }
    assert plugins[..i] == plugins;
    found := false;
  }
}
