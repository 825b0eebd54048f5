/** The list editors the create pages share: adding trimmed, duplicate-free
    entries (keywords, co-authors, custom tags) and appending mock upload
    paths, with or without a cap. */
module FormLists {
  import opened Seqs
  import Text

  /** Each entry is non-empty and trimmed, and no entry occurs twice. */
  predicate WellFormedList(list: seq<string>)
  {
    NoDup(list) && forall i :: 0 <= i < |list| ==> list[i] != "" && Text.IsTrimmed(list[i])
  }

  /** The input is taken: its trimmed text is non-empty and not yet listed. */
  predicate Takes(list: seq<string>, input: string)
  {
    Text.Trim(input) != "" && Text.Trim(input) !in list
  }

  /** `if (x.trim() && !list.includes(x.trim())) list = [...list, x.trim()]`. */
  function AddTrimmed(list: seq<string>, input: string): (r: seq<string>)
    ensures Takes(list, input) ==> r == list + [Text.Trim(input)]
    ensures !Takes(list, input) ==> r == list
  {
    if Takes(list, input) then list + [Text.Trim(input)] else list
  }

  /** The trimmed input is listed afterwards exactly when it is non-empty. */
  lemma AddTrimmedContains(list: seq<string>, input: string)
    ensures Text.Trim(input) in AddTrimmed(list, input) <==> Text.Trim(input) != "" || "" in list
  {
  }

  /** Adding the same input twice adds it once. */
  lemma AddTrimmedTwice(list: seq<string>, input: string)
    ensures AddTrimmed(AddTrimmed(list, input), input) == AddTrimmed(list, input)
  {
  }

  lemma AddTrimmedWellFormed(list: seq<string>, input: string)
    requires WellFormedList(list)
    ensures WellFormedList(AddTrimmed(list, input))
  {
    if Takes(list, input) {
      Text.TrimSpec(input);
      NoDupAppend(list, Text.Trim(input));
    }
  }

  /** `list.filter(x => x !== v)` keeps a well-formed list well-formed. */
  lemma RemoveWellFormed(list: seq<string>, v: string)
    requires WellFormedList(list)
    ensures WellFormedList(RemoveAll(list, v))
  {
    RemoveAllNoDup(list, v);
  }

  /** `Array.from(files).map((_, i) => prefix + now + '-' + i + suffix)`. */
  function UploadPaths(prefix: string, suffix: string, now: nat, count: nat): (r: seq<string>)
    ensures |r| == count
    ensures forall i :: 0 <= i < count ==>
              r[i] == prefix + Text.NatToString(now) + "-" + Text.NatToString(i) + suffix
  {
    seq(count, i requires 0 <= i < count => prefix + Text.NatToString(now) + "-" + Text.NatToString(i) + suffix)
  }

  /** `[...prev, ...added].slice(0, cap)`. */
  function AppendCapped(prev: seq<string>, added: seq<string>, cap: nat): (r: seq<string>)
    ensures |r| == Min(cap, |prev| + |added|)
    ensures |prev| <= cap ==> prev <= r
    ensures |prev| >= cap ==> r == prev[..cap]
    ensures forall i :: |prev| <= i < |r| ==> r[i] == added[i - |prev|]
  {
    Take(prev + added, cap)
  }

  /** Once the list is full, uploading more changes nothing. */
  lemma AppendCappedWhenFull(prev: seq<string>, added: seq<string>, cap: nat)
    requires |prev| == cap
    ensures AppendCapped(prev, added, cap) == prev
  {
  }
}
