/** The list operations behind the cache's update callback: searching the
    list for an identifier and overwriting the slot that search returns. */
module PostCache {
  import opened PostModel

  /** `findIndex(p => p.id === id)`: the first index whose post has the
      given id, or -1 when there is none. */
  function IndexOf(ps: seq<Post>, id: string): (k: int)
    ensures -1 <= k < |ps|
    ensures k == -1 <==> forall j :: 0 <= j < |ps| ==> ps[j].id != id
    ensures k >= 0 ==> ps[k].id == id && forall j :: 0 <= j < k ==> ps[j].id != id
  {
    if ps == [] then -1
    else if ps[0].id == id then 0
    else
      var k := IndexOf(ps[1..], id);
      if k < 0 then -1 else k + 1
  }

  /** `findIndex` as the script engine runs it: a scan from index 0 that
      stops at the first match. */
  method FindIndex(ps: seq<Post>, id: string) returns (k: int)
    ensures k == IndexOf(ps, id)
    ensures k == -1 <==> forall j :: 0 <= j < |ps| ==> ps[j].id != id
    ensures k >= 0 ==> k < |ps| && ps[k].id == id && forall j :: 0 <= j < k ==> ps[j].id != id
  {
    var i := 0;
    while i < |ps|
      invariant 0 <= i <= |ps|
      invariant forall j :: 0 <= j < i ==> ps[j].id != id
    {
      if ps[i].id == id {
        return i;
      }
      i := i + 1;
    }
    return -1;
  }

  /** `a[k] = v` on a script array, for the indices `findIndex` can return:
      a real index overwrites that slot; -1 sets a property that is not an
      element, so the elements, and every later spread of the array, are
      unchanged. */
  function AssignSlot(ps: seq<Post>, k: int, p: Post): (r: seq<Post>)
    requires -1 <= k < |ps|
    ensures |r| == |ps|
    ensures k >= 0 ==> r[k] == p
    ensures forall j :: 0 <= j < |ps| && j != k ==> r[j] == ps[j]
  {
    if k < 0 then ps else ps[k := p]
  }

  /** The list the update callback stores: the first post with the id
      overwritten by `p`, or the same list when no post has it. */
  function ReplaceById(ps: seq<Post>, id: string, p: Post): seq<Post> {
    AssignSlot(ps, IndexOf(ps, id), p)
  }

  /** An independent, recursive definition of "replace the first match". */
  function ReplaceFirst(ps: seq<Post>, id: string, p: Post): seq<Post> {
    if ps == [] then []
    else if ps[0].id == id then [p] + ps[1..]
    else [ps[0]] + ReplaceFirst(ps[1..], id, p)
  }

  /** The post the update callback builds: the submitted id, title and
      content, an empty image path and a null creator. */
  function UpdatedPost(id: string, title: string, content: string): Post {
    Post(id, title, content, "", None)
  }

  /** The post the create callback appends: the caller's title and content
      with the server's id, image path and creator. */
  function CreatedPost(title: string, content: string, r: CreateResponse): Post {
    Post(r.post.id, title, content, r.post.imagePath, r.post.creator)
  }

  /** Replacing by id agrees with the recursive reference definition. */
  lemma {:induction false} ReplaceByIdIsReplaceFirst(ps: seq<Post>, id: string, p: Post)
    ensures ReplaceById(ps, id, p) == ReplaceFirst(ps, id, p)
  {
    if ps != [] && ps[0].id != id {
      var tail := ps[1..];
      ReplaceByIdIsReplaceFirst(tail, id, p);
      var k := IndexOf(tail, id);
      assert IndexOf(ps, id) == if k < 0 then -1 else k + 1;
      var whole, consed := ReplaceById(ps, id, p), [ps[0]] + ReplaceById(tail, id, p);
      assert forall j :: 0 < j < |ps| ==> whole[j] == consed[j] by {
        forall j | 0 < j < |ps| ensures whole[j] == consed[j] {
          assert consed[j] == ReplaceById(tail, id, p)[j - 1];
          assert tail[j - 1] == ps[j];
        }
      }
      assert whole == consed;
    }
  }

  /** When the id occurs: same length, the first match holds `p`, and every
      other slot is untouched. */
  lemma ReplaceByIdPresent(ps: seq<Post>, id: string, p: Post, k: int)
    requires 0 <= k < |ps| && ps[k].id == id
    ensures |ReplaceById(ps, id, p)| == |ps|
    ensures ReplaceById(ps, id, p)[IndexOf(ps, id)] == p
    ensures IndexOf(ps, id) <= k
    ensures forall j :: 0 <= j < |ps| && j != IndexOf(ps, id) ==> ReplaceById(ps, id, p)[j] == ps[j]
  {
  }

  /** When the id does not occur the list is unchanged. */
  lemma ReplaceByIdAbsent(ps: seq<Post>, id: string, p: Post)
    requires forall j :: 0 <= j < |ps| ==> ps[j].id != id
    ensures ReplaceById(ps, id, p) == ps
  {
  }

  /** A replacement that keeps the id never changes which id sits where. */
  lemma ReplaceByIdKeepsIds(ps: seq<Post>, id: string, p: Post)
    requires p.id == id
    ensures |ReplaceById(ps, id, p)| == |ps|
    ensures forall j :: 0 <= j < |ps| ==> ReplaceById(ps, id, p)[j].id == ps[j].id
  {
  }

  /** Delivering the same update twice leaves the list as one delivery does. */
  lemma ReplaceByIdIdempotent(ps: seq<Post>, id: string, p: Post)
    requires p.id == id
    ensures ReplaceById(ReplaceById(ps, id, p), id, p) == ReplaceById(ps, id, p)
  {
    var r := ReplaceById(ps, id, p);
    var k := IndexOf(ps, id);
    if k >= 0 {
      assert r[k].id == id;
      assert forall j :: 0 <= j < k ==> r[j] == ps[j] && r[j].id != id;
    } else {
      assert r == ps;
    }
  }

  /** A post appended under an id the list did not hold is what a later
      search for that id finds: its update replaces the appended post. */
  lemma CreatedIsFound(ps: seq<Post>, title: string, content: string, r: CreateResponse)
    requires forall j :: 0 <= j < |ps| ==> ps[j].id != r.post.id
    ensures IndexOf(ps + [CreatedPost(title, content, r)], r.post.id) == |ps|
  {
    var qs := ps + [CreatedPost(title, content, r)];
    assert forall j :: 0 <= j < |ps| ==> qs[j] == ps[j];
    assert qs[|ps|].id == r.post.id;
  }
}
