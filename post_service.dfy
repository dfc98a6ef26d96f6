/** The post service: the client-side cache of posts, the requests it
    issues, and the callbacks that update the cache when replies arrive. */
module Service {
  import opened PostModel
  import opened PostPayload
  import opened PostCache

  /** The logical content of an HTTP request; the base URL and the
      query-string formatting are not modelled. */
  datatype Request =
    | HttpGetPage(page: int, size: int)
    | HttpGetOne(id: string)
    | HttpPostForm(form: seq<FormEntry>)
    | HttpPut(id: string, body: UpdateBody)
    | HttpDelete(id: string)

  class PostService {
    /** The cached list (`this.posts`). */
    var posts: seq<Post>
    /** Every notification pushed on the change stream, oldest first. */
    var log: seq<Notification>
    /** Every route the service navigated to, oldest first. */
    var navigations: seq<string>

    /** The latest notification shows the cache as it is now. */
    ghost predicate Synced()
      reads this
    {
      log != [] ==> log[|log| - 1].posts == posts
    }

    constructor ()
      ensures posts == [] && log == [] && navigations == []
      ensures Synced()
    {
      posts := [];
      log := [];
      navigations := [];
    }

    /** `getPosts(page, size)`: on a delivered page the whole cache is
        replaced by the mapped records and a copy is published with the
        server's total; on a failure nothing happens. */
    method GetPosts(page: int, size: int, reply: Reply<PageResponse>) returns (req: Request)
      requires Synced()
      modifies this
      ensures Synced()
      ensures req == HttpGetPage(page, size)
      ensures navigations == old(navigations)
      ensures reply.TransportFailure? ==> posts == old(posts) && log == old(log)
      ensures reply.Delivered? ==>
        && posts == MapPage(reply.body.posts)
        && log == old(log) + [Notification(posts, reply.body.total)]
    {
      req := HttpGetPage(page, size);
      if reply.Delivered? {
        var transformed := TransformPage(reply.body);
        posts := transformed.posts;
        log := log + [Notification(posts, transformed.total)];
      }
    }

    /** `getPost(id)`: hands the request back to the caller; the cache, the
        change stream and the route are untouched (no `modifies`). */
    method GetPost(id: string) returns (req: Request)
      ensures req.HttpGetOne? && req.id == id
    {
      req := HttpGetOne(id);
    }

    /** `addPost(title, content, image)`: sends the multipart form; on a
        delivered reply appends the new post, publishes the list with a
        total equal to its new length, and navigates to the root. */
    method AddPost(title: string, content: string, image: File, reply: Reply<CreateResponse>) returns (req: Request)
      requires Synced()
      modifies this
      ensures Synced()
      ensures req == HttpPostForm(CreateForm(title, content, image))
      ensures reply.TransportFailure? ==>
        posts == old(posts) && log == old(log) && navigations == old(navigations)
      ensures reply.Delivered? ==>
        && |posts| == |old(posts)| + 1
        && posts[..|old(posts)|] == old(posts)
        && posts[|old(posts)|] == Post(reply.body.post.id, title, content,
                                       reply.body.post.imagePath, reply.body.post.creator)
        && log == old(log) + [Notification(posts, |posts|)]
        && navigations == old(navigations) + ["/"]
    {
      req := HttpPostForm(CreateForm(title, content, image));
      if reply.Delivered? {
        var post := CreatedPost(title, content, reply.body);
        posts := posts + [post];
        log := log + [Notification(posts, |posts|)];
        navigations := navigations + ["/"];
      }
    }

    /** `updatePost(id, title, content, image)`: sends the body chosen by the
        image's kind; on a delivered reply overwrites the first post with the
        id (if any) by one with an empty image path and a null creator,
        publishes the list with its length as total, and navigates. */
    method UpdatePost(id: string, title: string, content: string, image: Image, reply: Reply<UpdateResponse>)
      returns (req: Request)
      requires Synced()
      modifies this
      ensures Synced()
      ensures req == HttpPut(id, UpdateBodyFor(id, title, content, image))
      ensures reply.TransportFailure? ==>
        posts == old(posts) && log == old(log) && navigations == old(navigations)
      ensures reply.Delivered? ==>
        && posts == ReplaceById(old(posts), id, UpdatedPost(id, title, content))
        && log == old(log) + [Notification(posts, |posts|)]
        && navigations == old(navigations) + ["/"]
    {
      req := HttpPut(id, UpdateBodyFor(id, title, content, image));
      if reply.Delivered? {
        var updated := posts;
        var oldIndex := FindIndex(updated, id);
        var post := UpdatedPost(id, title, content);
        updated := AssignSlot(updated, oldIndex, post);
        posts := updated;
        log := log + [Notification(posts, |posts|)];
        navigations := navigations + ["/"];
      }
    }

    /** `deletePost(id)`: hands the request back to the caller; the cache and
        the change stream are untouched (no `modifies`). */
    method DeletePost(id: string) returns (req: Request)
      ensures req.HttpDelete? && req.id == id
    {
      req := HttpDelete(id);
    }
  }

  /** A session built only from the contracts above: a page of ten posts
      out of 25, a create answered with id "abc123", then an update of it. */
  method Session(page: seq<WirePost>, file: File)
    requires |page| == 10
    requires forall j :: 0 <= j < |page| ==> page[j].wireId != "abc123"
  {
    var s := new PostService();
    var _ := s.GetPosts(1, 10, Delivered(PageResponse("fetched", page, 25)));
    assert |s.posts| == 10 && s.log[0].total == 25;

    var created := Post("abc123", "", "", "images/t.png", Some("u1"));
    var _ := s.AddPost("T", "C", file, Delivered(CreateResponse("added", created)));
    assert |s.posts| == 11 && s.posts[10].id == "abc123" && s.log[1].total == 11;

    var before := s.posts;
    CreatedIsFound(before[..10], "T", "C", CreateResponse("added", created));
    assert before == before[..10] + [CreatedPost("T", "C", CreateResponse("added", created))];
    var _ := s.UpdatePost("abc123", "T2", "C2", StoredPath("path.png"), Delivered(UpdateResponse("updated")));
    assert |s.posts| == 11 && s.posts[10] == Post("abc123", "T2", "C2", "", None);
    assert s.posts[..10] == before[..10];

    var logged := s.log;
    var _ := s.DeletePost("abc123");
    var _ := s.GetPost("abc123");
    assert s.log == logged && |s.posts| == 11;
  }
}
