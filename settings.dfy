/** The request properties read from the application's ini settings: the list
    of DTD urls and the list of plugin modules. */
module Settings {
  import opened Outcomes
  import opened PyStrings

  const DtdUrlsKey := "dtd_urls"
  const PluginsKey := "waxe.xml.plugins"

  /** The non-empty lines of a setting's value, in order. */
  function Lines(value: string): seq<string>
  {
    Compact(Split(value, '\n'))
  }

  /** `get_dtd_urls`: the non-empty lines of the `dtd_urls` setting; an
      AttributeError when the setting is absent. */
  function GetDtdUrls(settings: map<string, string>): (r: Result<seq<string>, string>)
    ensures DtdUrlsKey !in settings <==> r == Failure("No dtd_urls defined in the ini file.")
    ensures r.Success? ==> forall u :: u in r.value ==> u != "" && '\n' !in u
    ensures r.Success? ==> forall u :: u in r.value <==> u in Split(settings[DtdUrlsKey], '\n') && u != ""
    ensures r.Success? ==> r.value == Lines(settings[DtdUrlsKey])
  {
    if DtdUrlsKey !in settings then Failure("No dtd_urls defined in the ini file.")
    else Success(Lines(settings[DtdUrlsKey]))
  }

  /** Writing urls one per line, with blank lines before and after them, and
      reading them back gives the same urls in the same order. */
  lemma DtdUrlsRoundTrip(urls: seq<string>, blanksBefore: nat, blanksAfter: nat)
    requires forall i :: 0 <= i < |urls| ==> urls[i] != "" && '\n' !in urls[i]
    ensures GetDtdUrls(map[DtdUrlsKey := Blanks(blanksBefore) + Join(urls, '\n') + Blanks(blanksAfter)]) == Success(urls)
  {
    LinesRoundTrip(urls, blanksBefore, blanksAfter);
  }

  /** Lines written one per line, any of them blank, read back as the non-blank
      ones in their order. */
  lemma LinesOfJoin(ps: seq<string>)
    requires |ps| >= 1 && forall i :: 0 <= i < |ps| ==> '\n' !in ps[i]
    ensures Lines(Join(ps, '\n')) == Compact(ps)
  {
    SplitJoin(ps, '\n');
  }

  /** `n` newline characters. */
  function Blanks(n: nat): (r: string)
    ensures |r| == n && forall i :: 0 <= i < n ==> r[i] == '\n'
  {
    if n == 0 then "" else "\n" + Blanks(n - 1)
  }

  lemma {:induction false} SplitBlanks(n: nat, t: string)
    ensures Split(Blanks(n) + t, '\n') == Empties(n) + Split(t, '\n')
  {
    if n > 0 {
      var rest := Blanks(n - 1) + t;
      ConcatAssociative("\n", Blanks(n - 1), t);
      SplitAfterSep(rest, '\n');
      SplitBlanks(n - 1, t);
      ConcatAssociative([""], Empties(n - 1), Split(t, '\n'));
    } else {
      assert Blanks(n) + t == t;
    }
  }

  function Empties(n: nat): (r: seq<string>)
    ensures |r| == n && forall i :: 0 <= i < n ==> r[i] == ""
  {
    if n == 0 then [] else [""] + Empties(n - 1)
  }

  lemma {:induction false} CompactEmpties(n: nat)
    ensures Compact(Empties(n)) == []
  {
    if n > 0 {
      CompactEmpties(n - 1);
      assert Empties(n)[1..] == Empties(n - 1);
    }
  }

  lemma LinesRoundTrip(urls: seq<string>, before: nat, after: nat)
    requires forall i :: 0 <= i < |urls| ==> urls[i] != "" && '\n' !in urls[i]
    ensures Lines(Blanks(before) + Join(urls, '\n') + Blanks(after)) == urls
  {
    var body := Join(urls, '\n') + Blanks(after);
    ConcatAssociative(Blanks(before), Join(urls, '\n'), Blanks(after));
    SplitBlanks(before, body);
    CompactAppend(Empties(before), Split(body, '\n'));
    CompactEmpties(before);
    LinesOfBody(urls, after);
    assert [] + urls == urls;
  }

  /** The urls followed by trailing newlines read back as the urls. */
  lemma LinesOfBody(urls: seq<string>, after: nat)
    requires forall i :: 0 <= i < |urls| ==> urls[i] != "" && '\n' !in urls[i]
    ensures Compact(Split(Join(urls, '\n') + Blanks(after), '\n')) == urls
  {
    SplitTrailing(urls, after);
    if |urls| == 0 {
      CompactEmpties(after + 1);
    } else {
      CompactAppend(urls, Empties(after));
      CompactEmpties(after);
      CompactOfNonEmpty(urls);
      assert urls + [] == urls;
    }
  }

  /** Trailing newlines after a join split off as empty pieces. */
  lemma SplitTrailing(urls: seq<string>, after: nat)
    requires forall i :: 0 <= i < |urls| ==> '\n' !in urls[i]
    ensures Split(Join(urls, '\n') + Blanks(after), '\n') ==
            if |urls| == 0 then Empties(after + 1) else urls + Empties(after)
  {
    if |urls| == 0 {
      assert Join(urls, '\n') + Blanks(after) == Blanks(after) + "";
      SplitBlanks(after, "");
      assert Empties(after) + [""] == Empties(after + 1) by {
        EmptiesSnoc(after);
      }
    } else {
      var parts := urls + Empties(after);
      assert Join(urls, '\n') + Blanks(after) == Join(parts, '\n') by {
        JoinTrailing(urls, after);
      }
      SplitJoin(parts, '\n');
    }
  }

  lemma {:induction false} EmptiesSnoc(n: nat)
    ensures Empties(n) + [""] == Empties(n + 1)
  {
    if n > 0 {
      EmptiesSnoc(n - 1);
      assert Empties(n) + [""] == [""] + (Empties(n - 1) + [""]);
    }
  }

  lemma {:induction false} JoinTrailing(urls: seq<string>, after: nat)
    requires |urls| >= 1
    ensures Join(urls, '\n') + Blanks(after) == Join(urls + Empties(after), '\n')
  {
    if |urls| == 1 {
      JoinEmpties(urls[0], after);
    } else {
      JoinTrailing(urls[1..], after);
      assert (urls + Empties(after))[1..] == urls[1..] + Empties(after);
      assert Join(urls, '\n') + Blanks(after) == urls[0] + ['\n'] + (Join(urls[1..], '\n') + Blanks(after));
    }
  }

  lemma {:induction false} JoinEmpties(u: string, after: nat)
    ensures u + Blanks(after) == Join([u] + Empties(after), '\n')
    decreases after
  {
    if after == 0 {
      assert [u] + Empties(0) == [u];
      assert u + "" == u;
    } else {
      JoinEmpties("", after - 1);
      assert ([u] + Empties(after))[1..] == [""] + Empties(after - 1);
      assert Join([u] + Empties(after), '\n') == u + ['\n'] + Join([""] + Empties(after - 1), '\n');
      assert "" + Blanks(after - 1) == Blanks(after - 1);
      assert Blanks(after) == "\n" + Blanks(after - 1);
    }
  }

  /** `get_xml_plugins`: no plugins when the setting is absent, otherwise the
      module imported for each non-empty line, in order. Importing is a
      parameter: the module a dotted name stands for. */
  method GetXmlPlugins<M>(settings: map<string, string>, importModule: string -> M) returns (mods: seq<M>)
    ensures PluginsKey !in settings ==> mods == []
    ensures PluginsKey in settings ==>
              |mods| == |Lines(settings[PluginsKey])|
              && forall i :: 0 <= i < |mods| ==> mods[i] == importModule(Lines(settings[PluginsKey])[i])
  {
    if PluginsKey !in settings {
      return [];
    }
    var lis := Lines(settings[PluginsKey]);
    mods := [];
    var i := 0;
    while i < |lis|
      invariant 0 <= i <= |lis|
      invariant |mods| == i
      invariant forall k :: 0 <= k < i ==> mods[k] == importModule(lis[k])
    {
      mods := mods + [importModule(lis[i])];
      i := i + 1;
    }
  }
}
