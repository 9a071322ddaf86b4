/**
 * The WORD'S blog manager: the post form's validation and defaults, the simulated traffic
 * and publishing, and the filtered, sorted post table.
 */
module Words {
  import opened Wrappers
  import opened Types
  import opened Text
  import opened Seqs
  import opened Sorting
  import Uploads

  // The post form.

  datatype PostForm = PostForm(title: string, author: string, images: seq<string>)

  /** The messages `validate` stores per field; `None` means the field has no error. */
  datatype PostErrors = PostErrors(title: Option<string>, author: Option<string>, images: Option<string>)

  const TitleRequired: string := "Post title is required."
  const AuthorRequired: string := "Author name is required."

  /** `validate`: blank (after trimming) title or author, or more than five images. */
  function Validate(f: PostForm): (r: PostErrors)
    ensures r.title.Some? <==> Trim(f.title) == ""
    ensures r.author.Some? <==> Trim(f.author) == ""
    ensures r.images.Some? <==> |f.images| > Uploads.MaxImages
    ensures r.title.Some? ==> r.title.value == TitleRequired
    ensures r.author.Some? ==> r.author.value == AuthorRequired
    ensures r.images.Some? ==> r.images.value == Uploads.TooManyImages
  {
    PostErrors(
      if Trim(f.title) == "" then Some(TitleRequired) else None,
      if Trim(f.author) == "" then Some(AuthorRequired) else None,
      if |f.images| > Uploads.MaxImages then Some(Uploads.TooManyImages) else None)
  }

  predicate NoErrors(e: PostErrors)
  {
    e.title.None? && e.author.None? && e.images.None?
  }

  /** A title or author made only of white space is rejected, exactly as an empty one is. */
  lemma ValidateBlank(f: PostForm)
    ensures Validate(f).title.Some? <==> forall i :: 0 <= i < |f.title| ==> IsSpace(f.title[i])
    ensures Validate(f).author.Some? <==> forall i :: 0 <= i < |f.author| ==> IsSpace(f.author[i])
  {
    TrimEmptyIffBlank(f.title);
    TrimEmptyIffBlank(f.author);
  }

  /** Images collected through the upload control never trip the image-count error. */
  lemma UploadedImagesNeverTooMany(title: string, author: string, stored: seq<string>, edits: seq<Uploads.ImageEdit>)
    requires |stored| <= Uploads.MaxImages
    ensures Validate(PostForm(title, author, Uploads.ApplyEdits(stored, edits))).images.None?
  {
    Uploads.EditsKeepCap(stored, edits);
  }

  /**
   * Two batches of three chosen before either is read both pass the upload check, and the
   * six pictures then trip the form's own image error.
   */
  lemma OverlappingUploadsTripImageError(title: string, author: string, a: seq<string>, b: seq<string>)
    requires |a| == 3 && |b| == 3
    ensures var shown := Uploads.UploadRun(Uploads.UploadState([], []),
      [Uploads.Chosen(a), Uploads.Chosen(b), Uploads.Read(0), Uploads.Read(0)]).images;
      Validate(PostForm(title, author, shown)).images == Some(Uploads.TooManyImages)
  {
    Uploads.OverlappingBatchesExceedCap(a, b);
  }

  /**
   * `handleSubmit`: a form with errors is refused with them; a new post becomes a draft dated
   * `today` with no traffic, while an edit keeps the post's id, date, status and traffic.
   * The title and author are stored as typed, untrimmed.
   */
  function SubmitPost(f: PostForm, editing: Option<BlogPost>, stamp: string, today: string): (r: Result<BlogPost, PostErrors>)
    ensures r.Success? <==> NoErrors(Validate(f))
    ensures r.Failure? ==> r.error == Validate(f)
    ensures r.Success? ==> r.value.title == f.title && r.value.author == f.author && r.value.imageUrls == f.images
    ensures r.Success? && editing.None? ==>
      r.value.id == "b" + stamp && r.value.date == today && r.value.status == Draft && r.value.traffic == 0
    ensures r.Success? && editing.Some? ==>
      (r.value.id == editing.value.id && r.value.date == editing.value.date
       && r.value.status == editing.value.status && r.value.traffic == editing.value.traffic)
  {
    var e := Validate(f);
    if !NoErrors(e) then Failure(e)
    else match editing
      case None => Success(BlogPost("b" + stamp, f.title, f.author, today, Draft, 0, f.images))
      case Some(p) => Success(BlogPost(p.id, f.title, f.author, p.date, p.status, p.traffic, f.images))
  }

  /** Opening the form on a valid post and submitting it unchanged gives back the same post. */
  lemma EditRoundTrip(p: BlogPost, stamp: string, today: string)
    requires Trim(p.title) != "" && Trim(p.author) != "" && |p.imageUrls| <= Uploads.MaxImages
    ensures SubmitPost(PostForm(p.title, p.author, p.imageUrls), Some(p), stamp, today) == Success(p)
  {
  }

  // The traffic simulation.

  /** The draws for one post: the traffic gain in 0..24 and whether a draft is published (`Math.random() > 0.95`). */
  datatype PostDraw = PostDraw(gain: nat, publish: bool)

  predicate ValidPostDraws(draws: seq<PostDraw>, n: nat)
  {
    |draws| == n && forall i :: 0 <= i < n ==> draws[i].gain < 25
  }

  /** One post's tick: published posts gain traffic; a draft may be published with today's date. */
  function PostStep(p: BlogPost, d: PostDraw, today: string): BlogPost
  {
    if p.status == PostPublished then p.(traffic := p.traffic + d.gain)
    else if d.publish then p.(status := PostPublished, date := today)
    else p
  }

  /** One tick over all posts, each with its own draws. */
  function PostTick(posts: seq<BlogPost>, draws: seq<PostDraw>, today: string): (r: seq<BlogPost>)
    requires ValidPostDraws(draws, |posts|)
    ensures |r| == |posts|
    ensures forall i :: 0 <= i < |posts| ==>
      r[i].id == posts[i].id && r[i].title == posts[i].title && r[i].author == posts[i].author
      && r[i].imageUrls == posts[i].imageUrls
    ensures forall i :: 0 <= i < |posts| && posts[i].status == PostPublished ==>
      r[i].status == PostPublished && r[i].date == posts[i].date
      && posts[i].traffic <= r[i].traffic < posts[i].traffic + 25
    ensures forall i :: 0 <= i < |posts| && posts[i].status == Draft ==>
      r[i].traffic == posts[i].traffic
      && (r[i] == posts[i] || (r[i].status == PostPublished && r[i].date == today))
  {
    seq(|posts|, i requires 0 <= i < |posts| => PostStep(posts[i], draws[i], today))
  }

  function PublishedCount(posts: seq<BlogPost>): nat
  {
    |Filter(posts, (p: BlogPost) => p.status == PostPublished)|
  }

  /** A tick never unpublishes: the number of published posts cannot fall. */
  lemma TickNeverUnpublishes(posts: seq<BlogPost>, draws: seq<PostDraw>, today: string)
    requires ValidPostDraws(draws, |posts|)
    ensures PublishedCount(PostTick(posts, draws, today)) >= PublishedCount(posts)
  {
    var r := PostTick(posts, draws, today);
    FilterCountMonotone(posts, r, (p: BlogPost) => p.status == PostPublished);
  }

  // The post table.

  datatype PostField = IdField | TitleField | AuthorField | DateField | StatusField | TrafficField

  function PostKey(field: PostField): BlogPost -> KeyValue
  {
    (p: BlogPost) =>
      match field
      case IdField => Str(p.id)
      case TitleField => Str(p.title)
      case AuthorField => Str(p.author)
      case DateField => Str(p.date)
      case StatusField => Str(PostStatusName(p.status))
      case TrafficField => Num(p.traffic as real)
  }

  /** The table opens sorted by date, newest first. */
  const InitialPostSort: SortConfig<PostField> := SortConfig(DateField, Descending)

  predicate PostShown(searchTerm: string, statusFilter: Option<PostStatus>, p: BlogPost)
  {
    Contains(Lower(p.title), Lower(searchTerm))
    && (statusFilter.None? || p.status == statusFilter.value)
  }

  function PostShownFilter(searchTerm: string, statusFilter: Option<PostStatus>): BlogPost -> bool
  {
    (p: BlogPost) => PostShown(searchTerm, statusFilter, p)
  }

  /** `filteredAndSortedPosts`: posts whose title contains the search text, ignoring case, with the status chosen, sorted. */
  function PostView(posts: seq<BlogPost>, searchTerm: string, statusFilter: Option<PostStatus>, c: SortConfig<PostField>): (r: seq<BlogPost>)
    ensures forall p :: p in r <==> p in posts && PostShown(searchTerm, statusFilter, p)
    ensures Sorted(r, PostKey(c.key), c.direction)
    ensures multiset(r) == multiset(Filter(posts, PostShownFilter(searchTerm, statusFilter)))
  {
    var shown := Filter(posts, PostShownFilter(searchTerm, statusFilter));
    var r := Sort(shown, PostKey(c.key), c.direction);
    assert forall p :: p in r <==> p in multiset(r);
    r
  }

  /** Under the opening sort no post is listed above one with a later date string. */
  lemma InitialViewNewestFirst(posts: seq<BlogPost>, searchTerm: string, statusFilter: Option<PostStatus>, i: int, j: int)
    requires 0 <= i < j < |PostView(posts, searchTerm, statusFilter, InitialPostSort)|
    ensures !StrLess(PostView(posts, searchTerm, statusFilter, InitialPostSort)[i].date,
                     PostView(posts, searchTerm, statusFilter, InitialPostSort)[j].date)
  {
    var r := PostView(posts, searchTerm, statusFilter, InitialPostSort);
    var a := r[i].date;
    var b := r[j].date;
    assert InOrder(Str(a), Str(b), Descending);
    InOrderMeaning(Str(a), Str(b), Descending);
    if a != b {
      StrLessTotal(a, b);
      KeyLessIrreflexive(Str(a));
      if StrLess(a, b) && StrLess(b, a) {
        StrLessTransitive(a, b, a);
        StrLessIrreflexive(a);
      }
    } else {
      StrLessIrreflexive(a);
    }
  }
}
