/**
 * The news list page (src/pages/Home/Home.jsx): who sees the edit and
 * delete buttons, how a create or update body is built, and the page state
 * its handlers change (`error`, `showCreateForm`, `editingNews`).
 */
module Home {
  import opened Wrappers
  import opened Api
  import opened News
  import RoleUtils

  /** What a handler puts in `error`. */
  datatype HomeError =
    | TitleRequired
    | ContentRequired
    | ImageRequired
    | CreateRejected(serverMessage: Option<string>)  // `errorData.message || default`
    | UpdateRejected
    | NoEditTarget                                   // `editingNews.id` with `editingNews === null`
    | NetworkFailure

  /** The value of `hasPermission(...)` where its result is used unawaited: a Promise. */
  datatype Pending = Pending(permission: string)

  /** The value of `cond && hasPermission(...)`: `false`, or the pending Promise. */
  datatype Gate = Closed | Open(check: Pending)

  /** Every Promise is truthy, so an `Open` gate shows its button. */
  predicate Shown(g: Gate)
  {
    g.Open?
  }

  /** `newsItem.authorId === user?.id`; with no user both sides may be `undefined`. */
  predicate SameAuthor(item: NewsItem, user: Option<User>)
  {
    item.authorId == (if user.Some? then Some(user.value.id) else None)
  }

  /** `canUpdateNews(newsItem)` */
  function CanUpdateNews(item: NewsItem, user: Option<User>): (g: Gate)
    ensures Shown(g) <==> SameAuthor(item, user)
    ensures Shown(g) ==> g.check == Pending(RoleUtils.UpdateNews)
  {
    if SameAuthor(item, user) then Open(Pending(RoleUtils.UpdateNews)) else Closed
  }

  /** `canDeleteNews(newsItem)` */
  function CanDeleteNews(item: NewsItem, user: Option<User>): (g: Gate)
    ensures Shown(g) <==> SameAuthor(item, user)
    ensures Shown(g) ==> g.check == Pending(RoleUtils.DeleteNews)
  {
    if SameAuthor(item, user) then Open(Pending(RoleUtils.DeleteNews)) else Closed
  }

  /**
   * `!editingNews && canCreateNews`, where `canCreateNews` is the unawaited
   * `hasPermission(user?.permissions, CREATE_NEWS)`: the button shows
   * whenever nothing is being edited, for every user and for nobody.
   */
  function CreateButton(editingNews: Option<EditDraft>): (g: Gate)
    ensures Shown(g) <==> editingNews.None?
    ensures Shown(g) ==> g.check == Pending(RoleUtils.CreateNews)
  {
    if editingNews.None? then Open(Pending(RoleUtils.CreateNews)) else Closed
  }

  /**
   * The buttons of a news card depend on the user's id alone: two users
   * with the same id, whatever their permissions and roles, see the same.
   */
  lemma ButtonsIgnorePermissions(item: NewsItem, u1: User, u2: User)
    requires u1.id == u2.id
    ensures Shown(CanUpdateNews(item, Some(u1))) == Shown(CanUpdateNews(item, Some(u2)))
    ensures Shown(CanDeleteNews(item, Some(u1))) == Shown(CanDeleteNews(item, Some(u2)))
  {
  }

  /** With nobody logged in, the buttons show exactly on items without an `authorId`. */
  lemma AnonymousSeesAuthorless(item: NewsItem)
    ensures Shown(CanUpdateNews(item, None)) <==> item.authorId.None?
    ensures Shown(CanDeleteNews(item, None)) <==> item.authorId.None?
  {
  }

  /**
   * The validation and body of `handleCreateNews`: title, then content,
   * then image, the first failing check deciding the error; an accepted
   * body carries the trimmed title and content and the one image.
   */
  function CreateBody(form: NewsForm): (r: Result<NewsBody, HomeError>)
    ensures r == Err(TitleRequired) <==> Blank(form.title)
    ensures r == Err(ContentRequired) <==> !Blank(form.title) && Blank(form.content)
    ensures r == Err(ImageRequired) <==> !Blank(form.title) && !Blank(form.content) && form.imageUrl == ""
    ensures r.Ok? <==> !Blank(form.title) && !Blank(form.content) && form.imageUrl != ""
    ensures r.Ok? ==>
      && r.value == NewsBody(Trim(form.title), Trim(form.content), Some([form.imageUrl]))
      && r.value.title != "" && r.value.content != ""
  {
    if form.title == "" || Trim(form.title) == "" then Err(TitleRequired)
    else if form.content == "" || Trim(form.content) == "" then Err(ContentRequired)
    else if form.imageUrl == "" then Err(ImageRequired)
    else Ok(NewsBody(Trim(form.title), Trim(form.content), Some([form.imageUrl])))
  }

  /** The body of `handleUpdateNews`: title and content as typed, the image only when one is given. */
  function UpdateBody(form: NewsForm): (b: NewsBody)
    ensures b.title == form.title && b.content == form.content
    ensures b.images.Some? && |b.images.value| <= 1
    ensures b.images.value == [] <==> form.imageUrl == ""
    ensures b.images.value != [] ==> b.images.value[0] == form.imageUrl
  {
    NewsBody(form.title, form.content, if form.imageUrl != "" then Some([form.imageUrl]) else Some([]))
  }

  /**
   * Opening an item for editing and saving the form untouched sends the
   * title and content unchanged and keeps only the first image; an item
   * whose first image is `''` (or that has none) loses all its images.
   */
  lemma UnchangedEditKeepsFirstImage(item: NewsItem)
    ensures var b := UpdateBody(InitialForm(Some(EditCopy(item))));
      && b.title == item.title && b.content == item.content
      && (item.images.Some? && |item.images.value| > 0 && item.images.value[0] != "" ==>
            b.images == Some([item.images.value[0]]))
      && (item.images.None? || item.images.value == [] || item.images.value[0] == "" ==>
            b.images == Some([]))
  {
  }

  /** A request this page sends; `bearer` is the `token` put in the header. */
  datatype NewsRequest =
    | CreateRequest(bearer: Option<string>, body: NewsBody)
    | UpdateRequest(newsId: int, bearer: Option<string>, body: NewsBody)

  /** The backend's answer to a create or update. */
  datatype SaveReply = SaveOk | SaveNotOk(message: Option<string>) | SaveThrows

  /** The page's state; `reloads` counts the `fetchNews()` calls the handlers make. */
  datatype Page = Page(
    error: Option<HomeError>,
    showCreateForm: bool,
    editingNews: Option<EditDraft>,
    sent: seq<NewsRequest>,
    reloads: nat)

  /** `handleCreateNews(newsData)` */
  function AfterCreate(p: Page, token: Option<string>, form: NewsForm, reply: SaveReply): (p': Page)
    ensures CreateBody(form).Err? ==> p' == p.(error := Some(CreateBody(form).error))
    ensures CreateBody(form).Ok? ==> p'.sent == p.sent + [CreateRequest(token, CreateBody(form).value)]
    ensures CreateBody(form).Ok? && reply.SaveOk? ==>
      p' == p.(showCreateForm := false, sent := p'.sent, reloads := p.reloads + 1)
    ensures CreateBody(form).Ok? && reply.SaveNotOk? ==>
      p' == p.(error := Some(CreateRejected(ServerMessage(reply.message))), sent := p'.sent)
    ensures CreateBody(form).Ok? && reply.SaveThrows? ==>
      p' == p.(error := Some(NetworkFailure), sent := p'.sent)
    ensures p'.editingNews == p.editingNews
  {
    match CreateBody(form)
    case Err(e) => p.(error := Some(e))
    case Ok(body) =>
      var p1 := p.(sent := p.sent + [CreateRequest(token, body)]);
      match reply
      case SaveOk => p1.(showCreateForm := false, reloads := p.reloads + 1)
      case SaveNotOk(message) => p1.(error := Some(CreateRejected(ServerMessage(message))))
      case SaveThrows => p1.(error := Some(NetworkFailure))
  }

  /** `handleUpdateNews(newsData)` */
  function AfterUpdate(p: Page, token: Option<string>, form: NewsForm, reply: SaveReply): (p': Page)
    ensures p.editingNews.None? ==> p' == p.(error := Some(NoEditTarget))
    ensures p.editingNews.Some? ==>
      p'.sent == p.sent + [UpdateRequest(p.editingNews.value.item.id, token, UpdateBody(form))]
    ensures p.editingNews.Some? && reply.SaveOk? ==>
      p' == p.(editingNews := None, sent := p'.sent, reloads := p.reloads + 1)
    ensures p.editingNews.Some? && !reply.SaveOk? ==>
      p' == p.(error := Some(if reply.SaveNotOk? then UpdateRejected else NetworkFailure), sent := p'.sent)
    ensures p'.showCreateForm == p.showCreateForm
  {
    match p.editingNews
    case None => p.(error := Some(NoEditTarget))
    case Some(draft) =>
      var p1 := p.(sent := p.sent + [UpdateRequest(draft.item.id, token, UpdateBody(form))]);
      match reply
      case SaveOk => p1.(editingNews := None, reloads := p.reloads + 1)
      case SaveNotOk(_) => p1.(error := Some(UpdateRejected))
      case SaveThrows => p1.(error := Some(NetworkFailure))
  }

  /** A create form that fails validation sends nothing and reloads nothing. */
  lemma InvalidCreateSendsNothing(p: Page, token: Option<string>, form: NewsForm, reply: SaveReply)
    requires Blank(form.title) || Blank(form.content) || form.imageUrl == ""
    ensures AfterCreate(p, token, form, reply).sent == p.sent
    ensures AfterCreate(p, token, form, reply).reloads == p.reloads
    ensures AfterCreate(p, token, form, reply).error.Some?
  {
  }

  /** Every create request this page sends has a non-blank title and content and exactly one image. */
  lemma SentCreateIsValid(p: Page, token: Option<string>, form: NewsForm, reply: SaveReply)
    requires |AfterCreate(p, token, form, reply).sent| > |p.sent|
    ensures var req := AfterCreate(p, token, form, reply).sent[|p.sent|];
      && req.CreateRequest? && req.body.title != "" && req.body.content != ""
      && !IsSpace(req.body.title[0]) && !IsSpace(req.body.content[0])
      && req.body.images.Some? && |req.body.images.value| == 1 && req.body.images.value[0] != ""
  {
  }

  /** The page's component state, updated by its handlers. */
  class HomePage {
    var error: Option<HomeError>
    var showCreateForm: bool
    var editingNews: Option<EditDraft>
    var sent: seq<NewsRequest>
    var reloads: nat

    function State(): Page
      reads this
    {
      Page(error, showCreateForm, editingNews, sent, reloads)
    }

    constructor ()
      ensures State() == Page(None, false, None, [], 0)
    {
      error := None;
      showCreateForm := false;
      editingNews := None;
      sent := [];
      reloads := 0;
    }

    method HandleCreateNews(token: Option<string>, newsData: NewsForm, reply: SaveReply)
      modifies this
      ensures State() == AfterCreate(old(State()), token, newsData, reply)
    {
      if newsData.title == "" || Trim(newsData.title) == "" {
        error := Some(TitleRequired);
        return;
      }
      if newsData.content == "" || Trim(newsData.content) == "" {
        error := Some(ContentRequired);
        return;
      }
      if newsData.imageUrl == "" {
        error := Some(ImageRequired);
        return;
      }
      sent := sent + [CreateRequest(token, NewsBody(Trim(newsData.title), Trim(newsData.content), Some([newsData.imageUrl])))];
      match reply {
        case SaveOk =>
          reloads := reloads + 1;
          showCreateForm := false;
        case SaveNotOk(message) =>
          error := Some(CreateRejected(ServerMessage(message)));
        case SaveThrows =>
          error := Some(NetworkFailure);
      }
    }

    method HandleUpdateNews(token: Option<string>, newsData: NewsForm, reply: SaveReply)
      modifies this
      ensures State() == AfterUpdate(old(State()), token, newsData, reply)
    {
      if editingNews.None? {
        error := Some(NoEditTarget);
        return;
      }
      var images := if newsData.imageUrl != "" then Some([newsData.imageUrl]) else Some([]);
      sent := sent + [UpdateRequest(editingNews.value.item.id, token, NewsBody(newsData.title, newsData.content, images))];
      match reply {
        case SaveOk =>
          reloads := reloads + 1;
          editingNews := None;
        case SaveNotOk(_) =>
          error := Some(UpdateRejected);
        case SaveThrows =>
          error := Some(NetworkFailure);
      }
    }

    /** `handleEditClick(newsItem)` */
    method HandleEditClick(newsItem: NewsItem)
      modifies this
      ensures State() == old(State()).(editingNews := Some(EditCopy(newsItem)))
    {
      editingNews := Some(EditCopy(newsItem));
    }
  }
}
