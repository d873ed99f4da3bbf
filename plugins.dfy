/** The basic plugin system: an ordered list of plugins, the first one that
    claims an element handles its creation. */
module Plugins {
  import opened Outcomes

  /** A plugin module: whether it claims an element id under a DTD url, and the
      data its `add_element` returns for it. The request both receive is not
      modelled. */
  datatype Plugin<D> = Plugin(matches: (string, string) -> bool, addElement: (string, string) -> D)

  /** The index of the first plugin that claims `eltId` under `dtdUrl`. */
  function FirstMatch<D>(plugins: seq<Plugin<D>>, eltId: string, dtdUrl: string): (r: Option<nat>)
    ensures r.Some? ==> r.value < |plugins| && plugins[r.value].matches(eltId, dtdUrl)
    ensures r.Some? ==> forall j :: 0 <= j < r.value ==> !plugins[j].matches(eltId, dtdUrl)
    ensures r.None? <==> forall j :: 0 <= j < |plugins| ==> !plugins[j].matches(eltId, dtdUrl)
  {
    if |plugins| == 0 then None
    else if plugins[0].matches(eltId, dtdUrl) then Some(0)
    else
      match FirstMatch(plugins[1..], eltId, dtdUrl)
      case None => None
      case Some(i) => Some(i + 1)
  }

  /** `match`: scans the plugins in order and returns the first that claims the
      element, or None. */
  method Match<D>(plugins: seq<Plugin<D>>, eltId: string, dtdUrl: string) returns (found: Option<Plugin<D>>)
    ensures found.None? <==> FirstMatch(plugins, eltId, dtdUrl).None?
    ensures found.Some? ==> found.value == plugins[FirstMatch(plugins, eltId, dtdUrl).value]
  {
    var i := 0;
    while i < |plugins|
      invariant 0 <= i <= |plugins|
      invariant forall j :: 0 <= j < i ==> !plugins[j].matches(eltId, dtdUrl)
    {
      if plugins[i].matches(eltId, dtdUrl) {
        FirstMatchIs(plugins, eltId, dtdUrl, i);
        return Some(plugins[i]);
      }
      i := i + 1;
    }
    return None;
  }

  /** The contract of FirstMatch determines its value. */
  lemma FirstMatchIs<D>(plugins: seq<Plugin<D>>, eltId: string, dtdUrl: string, i: nat)
    requires i < |plugins| && plugins[i].matches(eltId, dtdUrl)
    requires forall j :: 0 <= j < i ==> !plugins[j].matches(eltId, dtdUrl)
    ensures FirstMatch(plugins, eltId, dtdUrl) == Some(i)
  {
    var r := FirstMatch(plugins, eltId, dtdUrl);
    assert r.Some?;
  }

  /** `add_element`: None when no plugin claims the element, otherwise what the
      first claiming plugin's `add_element` returns. */
  method AddElement<D>(plugins: seq<Plugin<D>>, eltId: string, dtdUrl: string) returns (r: Option<D>)
    ensures r.None? <==> forall j :: 0 <= j < |plugins| ==> !plugins[j].matches(eltId, dtdUrl)
    ensures r.Some? ==> r.value == plugins[FirstMatch(plugins, eltId, dtdUrl).value].addElement(eltId, dtdUrl)
  {
    var plugin := Match(plugins, eltId, dtdUrl);
    if plugin.None? {
      return None;
    }
    return Some(plugin.value.addElement(eltId, dtdUrl));
  }

  /** Plugins placed in front that claim nothing do not change which plugin
      wins; its position only shifts. */
  lemma {:induction false} NonMatchingPrefix<D>(pre: seq<Plugin<D>>, plugins: seq<Plugin<D>>, eltId: string, dtdUrl: string)
    requires forall j :: 0 <= j < |pre| ==> !pre[j].matches(eltId, dtdUrl)
    ensures FirstMatch(pre + plugins, eltId, dtdUrl) ==
            match FirstMatch(plugins, eltId, dtdUrl)
            case None => None
            case Some(i) => Some(i + |pre|)
  {
    var all := pre + plugins;
    match FirstMatch(plugins, eltId, dtdUrl)
    case None =>
      forall j | 0 <= j < |all| ensures !all[j].matches(eltId, dtdUrl) {
        if j >= |pre| {
          assert all[j] == plugins[j - |pre|];
        }
      }
    case Some(i) =>
      forall j | 0 <= j < i + |pre| ensures !all[j].matches(eltId, dtdUrl) {
        if j >= |pre| {
          assert all[j] == plugins[j - |pre|];
        }
      }
      FirstMatchIs(all, eltId, dtdUrl, i + |pre|);
  }
}
