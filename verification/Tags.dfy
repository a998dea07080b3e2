/** AWS tag lists: `get_tag_value` and `tags_to_map`. */
module Tags {
  import opened Wrappers
  import opened OrderedMap

  /** One entry of an AWS `Tags` list; either field may be missing from the JSON object. */
  datatype Tag = Tag(key: Option<string>, value: Option<string>)

  /** The tag at index `i` is the first one whose `Key` is `key`. */
  predicate IsFirstWithKey(tags: seq<Tag>, key: string, i: int) {
    0 <= i < |tags| && tags[i].key == Some(key) &&
    forall j | 0 <= j < i :: tags[j].key != Some(key)
  }

  /**
    get_tag_value: the `Value` of the first tag whose `Key` is `key`; `default` when
    that tag has no `Value`, when no tag has that key, or when there are no tags
    (a missing or null `Tags` field is the empty list here).
   */
  function GetTagValue(tags: seq<Tag>, key: string, default: string): (r: string)
    ensures (forall i | 0 <= i < |tags| :: tags[i].key != Some(key)) ==> r == default
    ensures forall i | IsFirstWithKey(tags, key, i) :: r == tags[i].value.GetOr(default)
    decreases |tags|
  {
    if |tags| == 0 then default
    else if tags[0].key == Some(key) then tags[0].value.GetOr(default)
    else
      var r := GetTagValue(tags[1..], key, default);
      assert forall i | IsFirstWithKey(tags, key, i) :: i > 0 && IsFirstWithKey(tags[1..], key, i - 1);
      r
  }

  /** A tag that has both a `Key` and a `Value`: the only kind `tags_to_map` keeps. */
  predicate IsComplete(t: Tag) {
    t.key.Some? && t.value.Some?
  }

  /** The (key, value) pair a complete tag contributes to `tags_to_map`. */
  function TagEntry(t: Tag): Option<(string, string)> {
    if IsComplete(t) then Some((t.key.value, t.value.value)) else None
  }

  /** The complete tags as (key, value) pairs, in list order. */
  function TagEntries(tags: seq<Tag>): seq<(string, string)> {
    Collect(tags, TagEntry)
  }

  /** tags_to_map: a dict comprehension over the complete tags. */
  function TagsToMap(tags: seq<Tag>): OMap<string, string> {
    PutAll([], TagEntries(tags))
  }

  /** Reference definition: the value of the last complete tag whose key is `k`. */
  function LastTagValue(tags: seq<Tag>, k: string): Option<string>
    decreases |tags|
  {
    if |tags| == 0 then None
    else
      var later := LastTagValue(tags[1..], k);
      if later.Some? then later
      else if IsComplete(tags[0]) && tags[0].key == Some(k) then tags[0].value
      else None
  }

  lemma {:induction false} TagEntriesLastValue(tags: seq<Tag>, k: string)
    ensures LastValue(TagEntries(tags), k) == LastTagValue(tags, k)
    decreases |tags|
  {
    if |tags| > 0 {
      TagEntriesLastValue(tags[1..], k);
      var head := if TagEntry(tags[0]).Some? then [TagEntry(tags[0]).value] else [];
      LastValueAppend(head, TagEntries(tags[1..]), k);
    }
  }

  /** `LastTagValue` is the value of the complete tag with key `k` that no later complete tag with key `k` follows. */
  lemma {:induction false} LastTagValueIsLast(tags: seq<Tag>, k: string)
    ensures LastTagValue(tags, k).None? <==> forall i | 0 <= i < |tags| :: !(IsComplete(tags[i]) && tags[i].key == Some(k))
    ensures forall i | 0 <= i < |tags| && IsComplete(tags[i]) && tags[i].key == Some(k) &&
                       (forall j | i < j < |tags| :: !(IsComplete(tags[j]) && tags[j].key == Some(k))) ::
              LastTagValue(tags, k) == tags[i].value
    decreases |tags|
  {
    if |tags| > 0 {
      LastTagValueIsLast(tags[1..], k);
      forall i | 0 < i < |tags| && IsComplete(tags[i]) && tags[i].key == Some(k) &&
                 (forall j | i < j < |tags| :: !(IsComplete(tags[j]) && tags[j].key == Some(k)))
        ensures LastTagValue(tags, k) == tags[i].value
      {
        assert tags[1..][i - 1] == tags[i];
      }
    }
  }

  /**
    tags_to_map keeps exactly the keys of complete tags, each once, and when a key
    repeats the later tag's value wins.
   */
  lemma TagsToMapSpec(tags: seq<Tag>, k: string)
    ensures Distinct(Keys(TagsToMap(tags)))
    ensures Get(TagsToMap(tags), k) == LastTagValue(tags, k)
    ensures k in Keys(TagsToMap(tags)) <==> exists i | 0 <= i < |tags| :: IsComplete(tags[i]) && tags[i].key == Some(k)
  {
    BuiltMap(TagEntries(tags), k);
    TagEntriesLastValue(tags, k);
    LastTagValueIsLast(tags, k);
  }

  /**
    When at most one tag carries the key `k`, `get_tag_value` and `tags_to_map` agree:
    both give that tag's value, or the default when there is none.
   */
  lemma TagLookupsAgree(tags: seq<Tag>, k: string, default: string)
    requires forall i, j | 0 <= i < j < |tags| :: !(tags[i].key == Some(k) && tags[j].key == Some(k))
    ensures GetTagValue(tags, k, default) == Get(TagsToMap(tags), k).GetOr(default)
  {
    TagsToMapSpec(tags, k);
    LastTagValueIsLast(tags, k);
    if i :| 0 <= i < |tags| && tags[i].key == Some(k) {
      assert IsFirstWithKey(tags, k, i);
    }
  }
}
