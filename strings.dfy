/** Go's strings.Join and an inverse that splits a ", "-joined list back
    into its entries. */
module Strings {

  /** strings.Join: the parts with `sep` between consecutive ones. */
  function Join(parts: seq<string>, sep: string): string
  {
    if |parts| == 0 then ""
    else if |parts| == 1 then parts[0]
    else parts[0] + sep + Join(parts[1..], sep)
  }

  /** The index of the first ',' in `s`, or |s| when there is none. */
  function CommaIndex(s: string): (i: nat)
    ensures i <= |s|
    ensures i < |s| ==> s[i] == ','
    ensures forall j :: 0 <= j < i ==> s[j] != ','
  {
    if s == [] || s[0] == ',' then 0 else 1 + CommaIndex(s[1..])
  }

  /** Splits a non-empty text at each ',' and drops one space after it. */
  function SplitEntries(s: string): seq<string>
    decreases |s|
  {
    var i := CommaIndex(s);
    if i == |s| then [s]
    else
      var next := if i + 1 < |s| && s[i + 1] == ' ' then i + 2 else i + 1;
      [s[..i]] + SplitEntries(s[next..])
  }

  /** Reads a ", "-joined list back; the empty text is the empty list. */
  function SplitList(s: string): seq<string>
  {
    if s == "" then [] else SplitEntries(s)
  }

  /** Splitting undoes joining with ", " when no entry holds a comma. */
  lemma {:induction false} SplitEntriesJoin(parts: seq<string>)
    requires |parts| >= 1
    requires forall k :: 0 <= k < |parts| ==> ',' !in parts[k]
    ensures SplitEntries(Join(parts, ", ")) == parts
  {
    var s := Join(parts, ", ");
    var p := parts[0];
    if |parts| == 1 {
      assert s == p;
      assert CommaIndex(s) == |s|;
    } else {
      var rest := Join(parts[1..], ", ");
      assert s == p + ", " + rest;
      assert s[|p|] == ',';
      var i := CommaIndex(s);
      assert i == |p|;
      assert s[..i] == p;
      assert s[i + 1] == ' ';
      assert s[i + 2..] == rest;
      SplitEntriesJoin(parts[1..]);
      assert [p] + parts[1..] == parts;
    }
  }

  /** Round trip for whole lists: non-empty, comma-free entries come back
      one for one and in order. */
  lemma {:induction false} SplitListJoin(parts: seq<string>)
    requires forall k :: 0 <= k < |parts| ==> parts[k] != "" && ',' !in parts[k]
    ensures SplitList(Join(parts, ", ")) == parts
  {
    if |parts| >= 1 {
      SplitEntriesJoin(parts);
      JoinNonEmpty(parts);
    }
  }

  /** Joining a non-empty list whose first entry is non-empty gives a
      non-empty text. */
  lemma JoinNonEmpty(parts: seq<string>)
    requires |parts| >= 1 && parts[0] != ""
    ensures Join(parts, ", ") != ""
  {
    if |parts| > 1 {
      assert Join(parts, ", ")[0] == parts[0][0];
    }
  }
}
