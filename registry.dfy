/**
 * The package state of apib.go: whether exchanges are being recorded, the
 * group, name and extra parameters the next exchange will be filed under,
 * and the registry of recorded resources by group. Each package-level
 * function that changes that state is a method of `Recorder`.
 */
module Apib {
  import opened Records
  import opened Render

  class Recorder {
    var recording: bool
    var currentGroup: string
    var currentName: string
    var currentParams: seq<Param>
    /** `calls`: the resources of each group, in the order they were recorded. */
    var calls: map<string, seq<Resource>>

    /** The zero values the package variables start with. */
    constructor ()
      ensures !recording && currentGroup == "" && currentName == ""
      ensures currentParams == [] && calls == map[]
    {
      recording, currentGroup, currentName, currentParams, calls := false, "", "", [], map[];
    }

    /** The middleware records the next exchange exactly when this holds. */
    predicate Capturing()
      reads this
    {
      recording && currentGroup != "" && currentName != ""
    }

    /** The resources recorded for `group`; none when it has no entry. */
    function GroupCalls(group: string): seq<Resource>
      reads this
    {
      if group in calls then calls[group] else []
    }

    method Record()
      modifies this
      ensures recording
      ensures currentGroup == old(currentGroup) && currentName == old(currentName)
      ensures currentParams == old(currentParams) && calls == old(calls)
    {
      recording := true;
    }

    method Group(group: string)
      modifies this
      ensures currentGroup == group
      ensures recording == old(recording) && currentName == old(currentName)
      ensures currentParams == old(currentParams) && calls == old(calls)
    {
      currentGroup := group;
    }

    method Name(name: string)
      modifies this
      ensures currentName == name
      ensures recording == old(recording) && currentGroup == old(currentGroup)
      ensures currentParams == old(currentParams) && calls == old(calls)
    {
      currentName := name;
    }

    /** Declares one more extra parameter for the next exchange, after those already declared. */
    method AddParam(name: string, typ: string, ex: string, desc: string, req: bool)
      modifies this
      ensures currentParams == old(currentParams) + [Param(name, ex, desc, typ, req)]
      ensures recording == old(recording) && currentGroup == old(currentGroup)
      ensures currentName == old(currentName) && calls == old(calls)
    {
      currentParams := currentParams + [Param(name, ex, desc, typ, req)];
    }

    /**
     * Clears the group, name and extra parameters. The new state depends on
     * nothing but `recording` and `calls`, which stay, so a second Flush
     * changes nothing.
     */
    method Flush()
      modifies this
      ensures currentGroup == "" && currentName == "" && currentParams == []
      ensures recording == old(recording) && calls == old(calls)
    {
      currentGroup := "";
      currentName := "";
      currentParams := [];
    }

    /**
     * Stops recording and renders every group into its file. `order` is the
     * order in which `range` visits the groups.
     */
    method Store(order: seq<string>, underscore: string -> string, qe: string -> string)
      returns (files: seq<(string, string)>)
      requires forall g :: g in calls <==> g in order
      requires forall i, j :: 0 <= i < j < |order| ==> order[i] != order[j]
      modifies this
      ensures !recording
      ensures currentGroup == old(currentGroup) && currentName == old(currentName)
      ensures currentParams == old(currentParams) && calls == old(calls)
      ensures |files| == |order|
      ensures forall i :: 0 <= i < |order| ==>
        files[i] == (FileName(underscore, order[i]), GroupText(order[i], calls[order[i]], qe))
    {
      recording := false;
      files := RenderFiles(calls, order, underscore, qe);
    }
  }

  /** `file` is what `Store` writes for `group`: its file name and its text. */
  predicate IsGroupFile(file: (string, string), group: string, rss: seq<Resource>,
                        underscore: string -> string, qe: string -> string)
  {
    file == (FileName(underscore, group), GroupText(group, rss, qe))
  }

  /** One group's file: its name, and its text written resource after resource. */
  method RenderGroupFile(group: string, rss: seq<Resource>, underscore: string -> string, qe: string -> string)
    returns (file: (string, string))
    ensures IsGroupFile(file, group, rss, underscore, qe)
  {
    var text := RenderGroup(group, rss, qe);
    file := (FileName(underscore, group), text);
  }

  /** The loop of `Store` over the groups: one file per group, in visiting order. */
  method RenderFiles(calls: map<string, seq<Resource>>, order: seq<string>, underscore: string -> string, qe: string -> string)
    returns (files: seq<(string, string)>)
    requires forall g :: g in order ==> g in calls
    ensures |files| == |order|
    ensures forall i :: 0 <= i < |order| ==>
      files[i] == (FileName(underscore, order[i]), GroupText(order[i], calls[order[i]], qe))
  {
    files := [];
    var i := 0;
    while i < |order|
      invariant 0 <= i <= |order|
      invariant |files| == i
      invariant forall j :: 0 <= j < i ==> IsGroupFile(files[j], order[j], calls[order[j]], underscore, qe)
    {
      var file := RenderGroupFile(order[i], calls[order[i]], underscore, qe);
      files := files + [file];
      i := i + 1;
    }
  }
}
