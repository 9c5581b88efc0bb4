/**
 * How a log entry's type is shown: a colour class chosen by `classnames`
 * from four mutually exclusive conditions, and the type upper-cased as the
 * label.
 */
module LogRender {

  /** The keys of `classnames({...})` whose condition holds, in order. */
  function Selected(entries: seq<(string, bool)>): (r: seq<string>)
    ensures forall k :: k in r <==> exists i :: 0 <= i < |entries| && entries[i] == (k, true)
    decreases |entries|
  {
    if entries == [] then []
    else if entries[0].1 then [entries[0].0] + Selected(entries[1..])
    else Selected(entries[1..])
  }

  /** `classnames` keeps the order of its keys: the selection of a concatenation is the concatenation of the selections. */
  lemma {:induction false} SelectedAppend(a: seq<(string, bool)>, b: seq<(string, bool)>)
    ensures Selected(a + b) == Selected(a) + Selected(b)
    decreases |a|
  {
    if a == [] {
      assert a + b == b;
    } else {
      assert (a + b)[0] == a[0] && (a + b)[1..] == a[1..] + b;
      SelectedAppend(a[1..], b);
    }
  }

  /** The selected class names joined by single spaces. */
  function Join(parts: seq<string>): (r: string) {
    if parts == [] then ""
    else if |parts| == 1 then parts[0]
    else parts[0] + " " + Join(parts[1..])
  }

  function ClassNames(entries: seq<(string, bool)>): (r: string) {
    Join(Selected(entries))
  }

  /** With exactly one condition true, `classnames` yields that one key. */
  lemma {:induction false} SelectedExactlyOne(entries: seq<(string, bool)>, k: nat)
    requires k < |entries| && entries[k].1
    requires forall i :: 0 <= i < |entries| && i != k ==> !entries[i].1
    ensures Selected(entries) == [entries[k].0]
    decreases |entries|
  {
    if k == 0 {
      SelectedNone(entries[1..]);
    } else {
      SelectedExactlyOne(entries[1..], k - 1);
    }
  }

  /** With no condition true, `classnames` yields no key. */
  lemma {:induction false} SelectedNone(entries: seq<(string, bool)>)
    requires forall i :: 0 <= i < |entries| ==> !entries[i].1
    ensures Selected(entries) == []
    decreases |entries|
  {
    if entries != [] {
      SelectedNone(entries[1..]);
    }
  }

  /** The colour class of an entry of type `typ`: one fixed class per known type, no class otherwise. */
  function TypeClass(typ: string): (r: string)
    ensures typ == "debug" ==> r == "text-teal-400"
    ensures typ == "error" ==> r == "text-rose-400"
    ensures typ == "warning" ==> r == "text-pink-400"
    ensures typ == "info" ==> r == "text-sky-400"
    ensures r == "" <==> typ !in {"debug", "error", "warning", "info"}
  {
    var entries := [
      ("text-teal-400", typ == "debug"),
      ("text-rose-400", typ == "error"),
      ("text-pink-400", typ == "warning"),
      ("text-sky-400", typ == "info")
    ];
    if typ == "debug" then SelectedExactlyOne(entries, 0); ClassNames(entries)
    else if typ == "error" then SelectedExactlyOne(entries, 1); ClassNames(entries)
    else if typ == "warning" then SelectedExactlyOne(entries, 2); ClassNames(entries)
    else if typ == "info" then SelectedExactlyOne(entries, 3); ClassNames(entries)
    else SelectedNone(entries); ClassNames(entries)
  }

  /** `toUpperCase` on one character: ASCII lower-case letters only. */
  function UpperChar(c: char): (r: char) {
    if 'a' <= c <= 'z' then (c as int - 32) as char else c
  }

  /** The entry's label: its type upper-cased. */
  function Upper(s: string): (r: string)
    ensures |r| == |s|
    ensures forall i :: 0 <= i < |s| ==> r[i] == UpperChar(s[i])
  {
    if s == [] then [] else [UpperChar(s[0])] + Upper(s[1..])
  }
}
