/** The access gate: a user may use the bot when the decimal form of their id is the single
    configured id, or one of the comma-separated configured ids after trimming. The two
    environment values are parameters; `None` is an unset variable. */
module Auth {

  import opened Wrappers
  import opened Strings

  /** A configuration value JavaScript treats as true: set and non-empty. */
  predicate IsSet(v: Option<string>) {
    v.Some? && v.value != ""
  }

  /** `allowedIds`: the comma-separated pieces, each trimmed. */
  function AllowedIds(list: string): (ids: seq<string>)
    ensures |ids| == |Split(list, ',')|
    ensures forall k :: 0 <= k < |ids| ==> ids[k] == Trim(Split(list, ',')[k])
  {
    TrimAll(Split(list, ','))
  }

  /** Each piece trimmed, in order: `parts.map(id => id.trim())`. */
  function TrimAll(parts: seq<string>): (ids: seq<string>)
    ensures |ids| == |parts|
    ensures forall k :: 0 <= k < |ids| ==> ids[k] == Trim(parts[k])
  {
    Each(Trim, parts)
  }

  /** `xs.map(f)`. */
  function Each<A, B>(f: A -> B, xs: seq<A>): (ys: seq<B>)
    ensures |ys| == |xs|
    ensures forall k :: 0 <= k < |xs| ==> ys[k] == f(xs[k])
  {
    if |xs| == 0 then [] else [f(xs[0])] + Each(f, xs[1..])
  }

  /** Mapping two lists one after the other is mapping their concatenation. */
  lemma {:induction false} EachAppend<A, B>(f: A -> B, p: seq<A>, q: seq<A>)
    ensures Each(f, p + q) == Each(f, p) + Each(f, q)
  {
    if |p| > 0 {
      assert (p + q)[0] == p[0];
      assert (p + q)[1..] == p[1..] + q;
      EachAppend(f, p[1..], q);
    } else {
      assert p + q == q;
    }
  }

  /** `isAuthorizedUser(userId)` with `AUTHORIZED_USER_ID` as `single` and
      `AUTHORIZED_USER_IDS` as `list`. */
  function IsAuthorized(userId: int, single: Option<string>, list: Option<string>): bool {
    var id := IntToString(userId);
    (IsSet(single) && id == single.value)
    || (IsSet(list) && id in AllowedIds(list.value))
  }

  /** `list` with one more id appended, as an operator would edit the variable. */
  function AddEntry(list: Option<string>, entry: string): Option<string> {
    if IsSet(list) then Some(list.value + "," + entry) else Some(entry)
  }

  /** With neither variable set (or both empty), nobody is let in. */
  lemma NobodyWithoutConfiguration(userId: int, single: Option<string>, list: Option<string>)
    requires !IsSet(single) && !IsSet(list)
    ensures !IsAuthorized(userId, single, list)
  {
  }

  /** The single id lets exactly that user in. */
  lemma SingleIdMeaning(userId: int, single: string)
    ensures IsAuthorized(userId, Some(single), None) <==> single != "" && single == IntToString(userId)
  {
  }

  /** Every id of a comma-joined list is let in, and nobody else: an entry that merely
      contains the id, or the id with extra characters, does not count. */
  lemma ListMeaning(userId: int, ids: seq<string>)
    requires |ids| >= 1
    requires forall k, i :: 0 <= k < |ids| && 0 <= i < |ids[k]| ==> ids[k][i] != ','
    requires forall k :: 0 <= k < |ids| ==> Trim(ids[k]) == ids[k]
    requires Join(ids, ',') != ""
    ensures IsAuthorized(userId, None, Some(Join(ids, ','))) <==> IntToString(userId) in ids
  {
    SplitJoin(ids, ',');
    var allowed := AllowedIds(Join(ids, ','));
    assert allowed == ids;
  }

  /** An entry with white space around the id still lets the user in. */
  lemma PaddedEntryAuthorizes(userId: int, pre: string, post: string)
    requires forall i :: 0 <= i < |pre| ==> pre[i] == ' '
    requires forall i :: 0 <= i < |post| ==> post[i] == ' '
    ensures IsAuthorized(userId, None, Some(pre + IntToString(userId) + post))
  {
    var id := IntToString(userId);
    var entry := pre + id + post;
    NoCommaInId(userId);
    assert forall i :: 0 <= i < |entry| ==> entry[i] != ',' by {
      forall i | 0 <= i < |entry|
        ensures entry[i] != ','
      {
        if i < |pre| {
          assert entry[i] == pre[i];
        } else if i < |pre| + |id| {
          assert entry[i] == id[i - |pre|];
        } else {
          assert entry[i] == post[i - |pre| - |id|];
        }
      }
    }
    SplitWithoutSeparator(entry, ',');
    TrimPadded(pre, id, post);
    assert AllowedIds(entry)[0] == id;
  }

  /** The decimal form of an id holds no comma and no white space at either end. */
  lemma NoCommaInId(userId: int)
    ensures forall i :: 0 <= i < |IntToString(userId)| ==> IntToString(userId)[i] != ','
    ensures !IsJsWhitespace(IntToString(userId)[0])
    ensures !IsJsWhitespace(IntToString(userId)[|IntToString(userId)| - 1])
  {
    var id := IntToString(userId);
    if userId >= 0 {
      assert AllDigits(id);
    } else {
      assert AllDigits(id[1..]);
      assert forall i :: 1 <= i < |id| ==> id[i] == id[1..][i - 1];
    }
  }

  /** Appending an entry after a comma appends its trimmed pieces to the allowed ids. */
  lemma AllowedIdsAppend(list: string, entry: string)
    ensures AllowedIds(list + "," + entry) == AllowedIds(list) + AllowedIds(entry)
  {
    assert list + "," + entry == list + [','] + entry;
    SplitAppend(list, ',', entry);
    EachAppend(Trim, Split(list, ','), Split(entry, ','));
  }

  /** An entry without a comma is one allowed id: itself, trimmed. */
  lemma AllowedIdsOfEntry(entry: string)
    requires forall i :: 0 <= i < |entry| ==> entry[i] != ','
    ensures AllowedIds(entry) == [Trim(entry)]
  {
    SplitWithoutSeparator(entry, ',');
    var ids := AllowedIds(entry);
    assert |ids| == 1 && ids[0] == Trim(Split(entry, ',')[0]);
  }

  /** Adding an entry to the list never takes access away from anyone. */
  lemma AddingEntryKeepsAccess(userId: int, single: Option<string>, list: Option<string>, entry: string)
    requires IsAuthorized(userId, single, list)
    ensures IsAuthorized(userId, single, AddEntry(list, entry))
  {
    if IsSet(list) {
      AllowedIdsAppend(list.value, entry);
    }
  }

  /** An added entry holding a user's id, up to white space around it, lets that user in. */
  lemma AddedEntryAuthorizes(userId: int, list: Option<string>, entry: string)
    requires forall i :: 0 <= i < |entry| ==> entry[i] != ','
    requires Trim(entry) == IntToString(userId)
    ensures IsAuthorized(userId, None, AddEntry(list, entry))
  {
    AllowedIdsOfEntry(entry);
    assert |Trim(entry)| <= |entry|;
    if IsSet(list) {
      AllowedIdsAppend(list.value, entry);
    }
  }
}
