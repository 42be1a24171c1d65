/**
 * `TagsPath` of internal/cache/tags_path.go: for each source tag
 * (`query`, `path`, `header`, ...) the dotted path of a field, built up one
 * nesting level at a time.
 */
module TagsPaths {

  type Paths = map<string, string>

  /**
   * The map `Add(tag, key)` leaves behind: a tag that is absent or maps to
   * the empty path gets `key`, any other gets `key` appended after a dot.
   */
  function Extend(m: Paths, tag: string, key: string): (r: Paths)
    ensures r.Keys == m.Keys + {tag}
    ensures (tag !in m || m[tag] == "") ==> r[tag] == key
    ensures (tag in m && m[tag] != "") ==> r[tag] == m[tag] + "." + key
    ensures forall t :: t in m && t != tag ==> r[t] == m[t]
  {
    var k := if tag in m then m[tag] else "";
    m[tag := if |k| == 0 then key else k + "." + key]
  }

  /** `hasValueTag`: some tag of `tags` has a path. */
  function HasValueTag(m: Paths, tags: seq<string>): (r: bool)
    ensures r <==> exists i :: 0 <= i < |tags| && tags[i] in m
  {
    if |tags| == 0 then false
    else if tags[0] in m then true
    else
      assert forall i :: 1 <= i < |tags| ==> tags[i] == tags[1..][i - 1];
      HasValueTag(m, tags[1..])
  }

  /** A tag-to-path map that `Add` updates in place. */
  class TagsPath {
    var entries: Paths

    constructor (m: Paths)
      ensures entries == m
    {
      entries := m;
    }

    /** `TagsPath.Add`. */
    method Add(tag: string, key: string)
      modifies this
      ensures entries == Extend(old(entries), tag, key)
    {
      var k := if tag in entries then entries[tag] else "";
      if |k| == 0 {
        k := key;
      } else {
        k := k + "." + key;
      }
      entries := entries[tag := k];
    }

    /** `clone`: a new map with the same entries. */
    method Clone() returns (n: TagsPath)
      ensures fresh(n) && n.entries == entries
    {
      n := new TagsPath(entries);
    }
  }

  /** Adding to a clone leaves the original as it was. */
  method CloneIsolated(t: TagsPath, tag: string, key: string) returns (c: TagsPath)
    ensures fresh(c)
    ensures t.entries == old(t.entries)
    ensures c.entries == Extend(t.entries, tag, key)
  {
    c := t.Clone();
    c.Add(tag, key);
  }
}
