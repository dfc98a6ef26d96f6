# Post service cache: a Dafny model

This project models the client-side post service of a blog front end
(`PostService` in `src/app/posts/post.service.ts`). The service keeps an
in-memory list of posts. It issues HTTP requests. When a reply arrives, a
callback updates the list and publishes a change notification `{posts, total}`
to its subscribers.

The model has four modules:

- `PostModel` (`post_model.dfy`): the records. These are a `Post`, the wire
  record `WirePost` whose identifier travels as `_id`, the reply bodies, a
  `Reply` that is either a delivered body or a transport failure, and the
  `Notification`. It also holds the page mapping `MapPage` and its inverse
  `UnmapPage`.
- `PostPayload` (`post_payload.dfy`): the request bodies. A multipart form is
  a sequence of named fields. `CreateForm` builds the create form and
  `UpdateBodyFor` makes the file-or-path choice of an update. Decoders read
  each body back the way a server would.
- `PostCache` (`post_cache.dfy`): the list operations of the update callback.
  `FindIndex` is the `findIndex` scan, written as a loop and proved against
  the function `IndexOf`. `AssignSlot` is the slot write, and `ReplaceById`
  combines the two. `ReplaceFirst` is an independent recursive reference
  definition.
- `Service` (`post_service.dfy`): the class `PostService`. Its fields are
  `posts` (the cache), `log` (every notification published, oldest first)
  and `navigations` (every route navigated to). There is one method for each
  operation of the source except `getPostUpdateListener`, which is listed
  under "Left out". Every method returns the request it issues. `GetPosts`,
  `AddPost` and `UpdatePost` also take the server's reply as a parameter;
  `GetPost` and `DeletePost` take none, because their replies go to the
  caller and never reach the cache. `Session` is a client written against
  the method contracts alone. It loads a page of ten posts with a server
  total of 25, creates a post that the server answers with id "abc123", and
  then updates that post with a stored image path. It then checks a delete
  and a fetch, which leave the cache and the log as they were.

Behaviour the model keeps from the code:

- On a transport failure no callback runs. The cache, the notification log
  and the navigation log stay as they were.
- A page reply replaces the whole list. Its notification carries the server's
  `total` unchanged, even when it differs from the list length.
- A create or update notification has `total` equal to the list length.
- An update whose id is not in the list leaves the list unchanged. There,
  `findIndex` returns -1, and `updatedPosts[-1] = post` writes a property that
  is not an array element, so later spreads ignore it. The list is still
  republished, and the service still navigates to the root.
- The replacement post of an update has an empty image path and a null
  creator, whatever image was submitted.
- Notifications are values. Each method only appends to `log`, so a
  notification published earlier is never changed by a later callback. This
  is the model's form of the `[...this.posts]` copies.

`imagePath` is a `string`, never null. The page and create replies carry it
as they are, `getPost` types it `string` (post.service.ts:59), and the update
writes `""` (post.service.ts:117). Only `creator` is nullable
(`Option<string>`), because the structured update payload and the updated
post set it to `null` (post.service.ts:105, :118).

## Model

| member | source | states |
|---|---|---|
| PostModel.MapPage | src/app/posts/post.service.ts:28-36 | the mapped list has one post per wire record, in order; post i has `id` = record i's `_id` and the same title, content, image path and creator |
| PostModel.TransformPage | src/app/posts/post.service.ts:26-39 | the transformed page's posts are the mapped page (`MapPage`), as many as the reply's, each with the record's `_id` as its id, and the server's `total` unchanged |
| PostModel.PageRoundTrip | src/app/posts/post.service.ts:28-36 | mapping a page loses nothing: un-mapping the mapped list gives back the wire records |
| PostModel.PostsRoundTrip | src/app/posts/post.service.ts:28-36 | every list of posts is the mapping of the page obtained by un-mapping it |
| PostModel.MapPageInjective | src/app/posts/post.service.ts:28-36 | two different pages never map to the same list |
| PostPayload.CreateForm | src/app/posts/post.service.ts:65-68 | the create form has the fields `title`, `content`, `image`, in that order |
| PostPayload.CreateRoundTrip | src/app/posts/post.service.ts:65-68 | the create form carries the submitted title, content and file, and the file is uploaded under the title as its file name |
| PostPayload.UpdateBodyFor | src/app/posts/post.service.ts:92-107 | the body is multipart exactly when the image is a file; a multipart body has the fields `id`, `title`, `content`, `image` in that order; a structured body has `imagePath` = the given path and a null creator |
| PostPayload.UpdateRoundTrip | src/app/posts/post.service.ts:92-107 | in both branches the body carries the submitted id, title, content and image; a multipart image is uploaded under the title as its file name |
| PostCache.IndexOf | src/app/posts/post.service.ts:112 | the search result is -1 exactly when no post has the id; otherwise it is the first index whose post has the id |
| PostCache.FindIndex | src/app/posts/post.service.ts:112 | the scan returns -1 exactly when no post has the id, otherwise the first matching index; it agrees with `IndexOf` |
| PostCache.AssignSlot | src/app/posts/post.service.ts:120 | the slot write keeps the length; an index from 0 up holds the new post afterwards and every other index is untouched; for -1, the absent-id result, no element changes |
| PostCache.ReplaceByIdIsReplaceFirst | src/app/posts/post.service.ts:111-121 | find-then-overwrite equals the recursive "replace the first match, keep the rest" |
| PostCache.ReplaceByIdPresent | src/app/posts/post.service.ts:111-121 | when the id occurs, the length is unchanged, the first match holds the new post and every other index is untouched |
| PostCache.ReplaceByIdAbsent | src/app/posts/post.service.ts:112-123 | when the id does not occur, the list stays equal to the old one element for element |
| PostCache.ReplaceByIdKeepsIds | src/app/posts/post.service.ts:113-121 | an update never changes which id sits at which index |
| PostCache.ReplaceByIdIdempotent | src/app/posts/post.service.ts:110-121 | delivering the same update twice gives the same list as delivering it once |
| PostCache.CreatedIsFound | src/app/posts/post.service.ts:75-82 | a post appended under an id the list did not hold is the one a later update of that id finds, at the last index |
| Service.PostService.constructor | src/app/posts/post.service.ts:14-17 | a new service has an empty cache, no notifications and no navigation |
| Service.PostService.GetPosts | src/app/posts/post.service.ts:19-47 | requests the page; on delivery the cache becomes exactly the mapped page and one notification with the new list and the server's total is appended; on failure nothing changes; never navigates |
| Service.PostService.GetPost | src/app/posts/post.service.ts:54-62 | returns the fetch request for the id and changes neither the cache nor the log (no `modifies`) |
| Service.PostService.AddPost | src/app/posts/post.service.ts:64-89 | sends the create form; on delivery the list grows by one, earlier posts unchanged, the last has the server's id, image path and creator and the caller's title and content; one notification with total = new length; one navigation to `/`; on failure nothing changes |
| Service.PostService.UpdatePost | src/app/posts/post.service.ts:91-128 | sends the body chosen by the image kind; on delivery the list is `ReplaceById` of the old one with `{id, title, content, "", null}`; one notification with total = length; one navigation to `/`; on failure nothing changes |
| Service.PostService.DeletePost | src/app/posts/post.service.ts:130-132 | returns the delete request for the id and changes neither the cache nor the log (no `modifies`) |

## Left out

- HTTP transport (`http.get/post/put/delete`): foreign library I/O. Each reply is a parameter of the method that handles it.
- Base URL and query-string assembly (`environment.apiURL`, `?page=..&size=..`): configuration and number formatting. A request records only its page and size, or its id.
- `getPostUpdateListener` and the delivery semantics of the change stream (several subscribers, no replay for late ones): library behaviour. Publishing is modelled as appending to `log`.
- What `getPost` and `deletePost` return to their callers once their requests complete: the caller's business, outside the cache.
- `router.navigate(["/"])`: a UI side effect, recorded only as an entry in `navigations`.
- Overlapping requests completing out of order: a concurrency concern. Replies arrive one at a time, in the order the methods are called.
- Aliasing of the script arrays and posts: the cache and the notifications are sequence values. The source never lets another party hold the live array. `[...this.posts]` (post.service.ts:44, :84, :123) copies the array but not the posts, so subscribers share the post objects with the cache. No behaviour is lost only because nothing in the service mutates a post after building it; a subscriber that mutated a shared post would change the cache too, and the model does not capture that.
- `FormData` internals and file contents: a file is an opaque handle, a form a sequence of named fields.
- `src/app/app-routing.module.ts`: a static route table whose guarding lives in the external `AuthGuard`; it has no logic of its own.
- Error kinds of a failed request: a failure is a single `TransportFailure` value.
