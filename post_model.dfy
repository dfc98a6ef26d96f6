/** Records exchanged between the post service, its server and its subscribers,
    and the mapping from the list endpoint's wire records to client-side posts. */
module PostModel {

  datatype Option<T> = None | Some(value: T)

  /** A post as the views see it. `creator` is null for a post rebuilt
      locally after an update. */
  datatype Post = Post(id: string, title: string, content: string, imagePath: string, creator: Option<string>)

  /** A post as the list endpoint sends it: the identifier travels under `_id`. */
  datatype WirePost = WirePost(wireId: string, title: string, content: string, imagePath: string, creator: Option<string>)

  /** Body of a successful page request: `{ message, posts, total }`. */
  datatype PageResponse = PageResponse(message: string, posts: seq<WirePost>, total: int)

  /** Body of a successful create request: `{ message, post }`; only the
      server-assigned `id`, `imagePath` and `creator` of `post` are used. */
  datatype CreateResponse = CreateResponse(message: string, post: Post)

  /** Body of a successful update request; the service never reads it. */
  datatype UpdateResponse = UpdateResponse(message: string)

  /** What an HTTP call delivers to its subscriber: the decoded body, or a
      transport failure, on which the success callback does not run. */
  datatype Reply<T> = Delivered(body: T) | TransportFailure

  /** One event on the change stream: a copy of the list and a total. */
  datatype Notification = Notification(posts: seq<Post>, total: int)

  /** Renames `_id` to `id` and copies every other field. */
  function ToPost(w: WirePost): Post {
    Post(w.wireId, w.title, w.content, w.imagePath, w.creator)
  }

  /** The inverse of ToPost: the wire record a post came from. */
  function ToWire(p: Post): WirePost {
    WirePost(p.id, p.title, p.content, p.imagePath, p.creator)
  }

  /** The `posts.map(...)` of a page response: one post per wire record,
      same fields, same order. */
  function MapPage(ws: seq<WirePost>): (ps: seq<Post>)
    ensures |ps| == |ws|
    ensures forall i :: 0 <= i < |ws| ==>
      && ps[i].id == ws[i].wireId
      && ps[i].title == ws[i].title
      && ps[i].content == ws[i].content
      && ps[i].imagePath == ws[i].imagePath
      && ps[i].creator == ws[i].creator
  {
    if ws == [] then [] else [ToPost(ws[0])] + MapPage(ws[1..])
  }

  /** Turns a list of posts back into the wire records of a page. */
  function UnmapPage(ps: seq<Post>): (ws: seq<WirePost>)
    ensures |ws| == |ps|
    ensures forall i :: 0 <= i < |ps| ==> ws[i] == ToWire(ps[i])
  {
    if ps == [] then [] else [ToWire(ps[0])] + UnmapPage(ps[1..])
  }

  /** The transformed page `{ posts, total }`: the mapped records and the
      server's total, passed through unchanged. */
  function TransformPage(r: PageResponse): (n: Notification)
    ensures n.posts == MapPage(r.posts)
    ensures |n.posts| == |r.posts|
    ensures forall i :: 0 <= i < |r.posts| ==> n.posts[i].id == r.posts[i].wireId
    ensures n.total == r.total
  {
    Notification(MapPage(r.posts), r.total)
  }

  /** Mapping a page loses nothing: the wire records can be recovered. */
  lemma {:induction false} PageRoundTrip(ws: seq<WirePost>)
    ensures UnmapPage(MapPage(ws)) == ws
  {
    if ws != [] {
      PageRoundTrip(ws[1..]);
      assert MapPage(ws) == [ToPost(ws[0])] + MapPage(ws[1..]);
    }
  }

  /** Every list of posts is the mapping of some page. */
  lemma {:induction false} PostsRoundTrip(ps: seq<Post>)
    ensures MapPage(UnmapPage(ps)) == ps
  {
    if ps != [] {
      PostsRoundTrip(ps[1..]);
      assert UnmapPage(ps) == [ToWire(ps[0])] + UnmapPage(ps[1..]);
    }
  }

  /** Two pages with different records never map to the same list. */
  lemma MapPageInjective(ws: seq<WirePost>, vs: seq<WirePost>)
    ensures MapPage(ws) == MapPage(vs) ==> ws == vs
  {
    PageRoundTrip(ws);
    PageRoundTrip(vs);
  }
}
