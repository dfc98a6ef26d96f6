/** The request bodies the post service sends when it creates or updates a
    post: a multipart form of named fields, or a structured post. */
module PostPayload {
  import opened PostModel

  /** A browser file chosen by the user; its contents are not modelled. */
  datatype File = File(handle: nat)

  /** A multipart field value: a text value, or a file with the file name
      given as the third argument of `FormData.append`. */
  datatype FormValue = Text(text: string) | Blob(file: File, filename: string)

  datatype FormEntry = FormEntry(name: string, value: FormValue)

  /** The image argument of an update: a freshly chosen file (an object) or
      the path of an image already stored on the server (a string). */
  datatype Image = Upload(file: File) | StoredPath(path: string)

  /** The body of an update request. */
  datatype UpdateBody = Multipart(form: seq<FormEntry>) | Structured(post: Post)

  /** The fields an update request carries, as a server would read them. */
  datatype UpdateFields = UpdateFields(id: string, title: string, content: string, image: Image)

  /** The field names of a form, in the order they were appended. */
  function Names(form: seq<FormEntry>): (ns: seq<string>)
    ensures |ns| == |form|
    ensures forall i :: 0 <= i < |form| ==> ns[i] == form[i].name
  {
    if form == [] then [] else [form[0].name] + Names(form[1..])
  }

  /** `FormData.get`: the value of the first field with the given name. */
  function Get(form: seq<FormEntry>, name: string): (v: Option<FormValue>)
    ensures v.None? <==> name !in Names(form)
    ensures v.Some? ==> exists i :: (0 <= i < |form| && form[i] == FormEntry(name, v.value)
                                     && forall j :: 0 <= j < i ==> form[j].name != name)
  {
    if form == [] then None
    else if form[0].name == name then Some(form[0].value)
    else Get(form[1..], name)
  }

  /** The form `addPost` sends: title, content and the image file, which is
      uploaded under the post's title as its file name. */
  function CreateForm(title: string, content: string, image: File): (form: seq<FormEntry>)
    ensures Names(form) == ["title", "content", "image"]
  {
    [ FormEntry("title", Text(title)),
      FormEntry("content", Text(content)),
      FormEntry("image", Blob(image, title)) ]
  }

  /** The body `updatePost` sends: a multipart form when the image is a
      file, a structured post (with a null creator) when it is a path. */
  function UpdateBodyFor(id: string, title: string, content: string, image: Image): (b: UpdateBody)
    ensures b.Multipart? <==> image.Upload?
    ensures b.Multipart? ==> Names(b.form) == ["id", "title", "content", "image"]
    ensures b.Structured? ==> b.post.imagePath == image.path && b.post.creator == None
  {
    match image
    case Upload(file) =>
      Multipart([ FormEntry("id", Text(id)),
                  FormEntry("title", Text(title)),
                  FormEntry("content", Text(content)),
                  FormEntry("image", Blob(file, title)) ])
    case StoredPath(path) =>
      Structured(Post(id, title, content, path, None))
  }

  /** The text value of a named form field, if there is one. */
  function GetText(form: seq<FormEntry>, name: string): Option<string> {
    match Get(form, name)
    case Some(Text(s)) => Some(s)
    case _ => None
  }

  /** Reads the title, content and file back out of a create form. */
  function DecodeCreate(form: seq<FormEntry>): Option<(string, string, File)> {
    match (GetText(form, "title"), GetText(form, "content"), Get(form, "image"))
    case (Some(t), Some(c), Some(Blob(f, _))) => Some((t, c, f))
    case _ => None
  }

  /** Reads an update body the way the server would: from the form fields,
      or from the structured post, whose `imagePath` names the kept image. */
  function DecodeUpdate(b: UpdateBody): Option<UpdateFields> {
    match b
    case Structured(p) => Some(UpdateFields(p.id, p.title, p.content, StoredPath(p.imagePath)))
    case Multipart(form) =>
      match (GetText(form, "id"), GetText(form, "title"), GetText(form, "content"), Get(form, "image"))
      case (Some(i), Some(t), Some(c), Some(Blob(f, _))) => Some(UpdateFields(i, t, c, Upload(f)))
      case _ => None
  }

  /** A create form carries exactly what the caller submitted, and the file
      is named after the title. */
  lemma CreateRoundTrip(title: string, content: string, image: File)
    ensures DecodeCreate(CreateForm(title, content, image)) == Some((title, content, image))
    ensures Get(CreateForm(title, content, image), "image") == Some(Blob(image, title))
  {
    var form := CreateForm(title, content, image);
    assert form[1..][1..][1..] == [];
  }

  /** Whichever branch is taken, an update body carries the submitted id,
      title, content and image. */
  lemma UpdateRoundTrip(id: string, title: string, content: string, image: Image)
    ensures DecodeUpdate(UpdateBodyFor(id, title, content, image)) == Some(UpdateFields(id, title, content, image))
    ensures image.Upload? ==> Get(UpdateBodyFor(id, title, content, image).form, "image") == Some(Blob(image.file, title))
  {
    match image
    case Upload(file) =>
      var form := UpdateBodyFor(id, title, content, image).form;
      assert form[1..][1..][1..][1..] == [];
    case StoredPath(_) =>
  }
}
