/**
 * forum.php: the community forum. An empty posts table is seeded with sample posts
 * written by the first subscribers; a logged-in user publishes a post or replies to one;
 * the list shows each post with a shortened body.
 */
module Forum {
  import opened Php
  import Csrf
  import Db
  import Users

  const InvalidForm := "Invalid form submission. Please refresh and try again."
  const InvalidPost := "Invalid post selected for reply."
  const ReplyRequired := "Reply content is required."
  const TitleRequired := "Title is required."
  const BodyRequired := "Post content is required."
  const DatabaseError := "Database error. Please try again later."
  const ReplyNotSaved := "Unable to publish your reply. Please try again."
  const PostNotSaved := "Unable to publish your post. Please try again."
  const Unexpected := "Unexpected error. Please try again later."

  /** The most sample posts seeding writes, and the fewest subscribers it needs. */
  const SeedSize := 20
  const Day := 86400

  /** A row of forum_posts; `createdAt` None leaves the column to its default, the current time. */
  datatype Post = Post(userId: int, authorName: string, title: string, body: string, createdAt: Option<int>)

  /** A row of forum_replies. */
  datatype Reply = Reply(postId: int, userId: int, authorName: string, body: string)

  /** The logged-in user, as the session holds them. */
  datatype CurrentUser = CurrentUser(id: int, name: string)

  // ---------------------------------------------------------------- seeding

  function Min(a: nat, b: nat): nat
  {
    if a <= b then a else b
  }

  /** How many sample posts seeding writes: none unless the table is empty, there are enough subscribers and the statement is ready. */
  function SeedCount(postCount: int, subscribers: nat, samples: nat, prepared: bool): (r: nat)
    ensures r <= SeedSize && r <= subscribers && r <= samples
    ensures r > 0 ==> postCount == 0 && subscribers >= SeedSize && prepared
    ensures postCount == 0 && subscribers >= SeedSize && prepared ==> r == Min(SeedSize, samples)
  {
    if postCount == 0 && subscribers >= SeedSize && prepared then Min(SeedSize, Min(samples, subscribers))
    else 0
  }

  /** Sample post i: subscriber i's id and trimmed name, sample i's title and body, dated 20 − i days before `now`. */
  function SeedPost(subscribers: seq<Users.SubscriberRow>, samples: seq<(string, string)>, now: int, i: nat): (r: Post)
    requires i < |subscribers| && i < |samples|
    ensures r.userId == subscribers[i].id && r.title == samples[i].0 && r.body == samples[i].1
    ensures r.createdAt.Some? && r.createdAt.value + (SeedSize - i) * Day == now
  {
    var s := subscribers[i];
    Post(s.id, Trim(Users.OrElse(s.firstName, "") + " " + Users.OrElse(s.lastName, "")),
         samples[i].0, samples[i].1, Some(now - (SeedSize - i) * Day))
  }

  /** The rows the first n iterations add; the result of each `execute()` is ignored, so a refused row is simply missing. */
  function SeedRows(subscribers: seq<Users.SubscriberRow>, samples: seq<(string, string)>, now: int,
                    executes: nat -> bool, n: nat): (r: seq<Post>)
    requires n <= |subscribers| && n <= |samples|
    ensures |r| <= n
  {
    if n == 0 then []
    else SeedRows(subscribers, samples, now, executes, n - 1)
         + (if executes(n - 1) then [SeedPost(subscribers, samples, now, n - 1)] else [])
  }

  /** When every insert runs, the seeded rows are exactly the sample posts 0 … n-1, in order. */
  lemma {:induction false} SeedRowsAllWritten(subscribers: seq<Users.SubscriberRow>, samples: seq<(string, string)>,
                                               now: int, executes: nat -> bool, n: nat)
    requires n <= |subscribers| && n <= |samples|
    requires forall i :: 0 <= i < n ==> executes(i)
    ensures var r := SeedRows(subscribers, samples, now, executes, n);
      |r| == n && forall i :: 0 <= i < n ==> r[i] == SeedPost(subscribers, samples, now, i)
  {
    if n > 0 {
      SeedRowsAllWritten(subscribers, samples, now, executes, n - 1);
      var init := SeedRows(subscribers, samples, now, executes, n - 1);
      var r := SeedRows(subscribers, samples, now, executes, n);
      assert r == init + [SeedPost(subscribers, samples, now, n - 1)];
      forall i | 0 <= i < n
        ensures r[i] == SeedPost(subscribers, samples, now, i)
      {
        if i < n - 1 {
          assert r[i] == init[i];
        }
      }
    }
  }

  /** When every insert runs, each seeded post is dated exactly one day after the one before it. */
  lemma SeedDatesOneDayApart(subscribers: seq<Users.SubscriberRow>, samples: seq<(string, string)>,
                             now: int, executes: nat -> bool, n: nat)
    requires n <= |subscribers| && n <= |samples|
    requires forall i :: 0 <= i < n ==> executes(i)
    ensures var r := SeedRows(subscribers, samples, now, executes, n);
      forall i, j :: 0 <= i < |r| && j == i + 1 < |r| ==>
        r[i].createdAt.Some? && r[j].createdAt.Some? && r[i].createdAt.value + Day == r[j].createdAt.value
  {
    SeedRowsAllWritten(subscribers, samples, now, executes, n);
  }

  /** Every seeded post is dated strictly before `now`, by at least one day. */
  lemma {:induction false} SeedRowsInThePast(subscribers: seq<Users.SubscriberRow>, samples: seq<(string, string)>,
                                              now: int, executes: nat -> bool, n: nat)
    requires n <= |subscribers| && n <= |samples| && n <= SeedSize
    ensures forall p :: p in SeedRows(subscribers, samples, now, executes, n) ==>
              p.createdAt.Some? && p.createdAt.value <= now - Day
  {
    if n > 0 {
      SeedRowsInThePast(subscribers, samples, now, executes, n - 1);
    }
  }

  /**
   * The seeding block: `postCount` is the count query's answer (0 when it fails),
   * `subscribers` the first subscribers by id, `samples` the sample titles and bodies,
   * `executes(i)` whether the i-th insert runs.
   */
  method Seed(posts: Db.Table<Post>, postCount: int, subscribers: seq<Users.SubscriberRow>,
              samples: seq<(string, string)>, prepared: bool, now: int, executes: nat -> bool)
    returns (iterations: nat)
    modifies posts
    ensures iterations == SeedCount(postCount, |subscribers|, |samples|, prepared)
    ensures posts.rows == old(posts.rows) + SeedRows(subscribers, samples, now, executes, iterations)
  {
    iterations := 0;
    if postCount == 0 && |subscribers| >= SeedSize && prepared {
      iterations := InsertSamples(posts, subscribers, samples, now, executes);
    }
  }

  /** The seeding loop: one insert per sample post, at most SeedSize of them. */
  method InsertSamples(posts: Db.Table<Post>, subscribers: seq<Users.SubscriberRow>,
                       samples: seq<(string, string)>, now: int, executes: nat -> bool)
    returns (i: nat)
    modifies posts
    ensures i == Min(SeedSize, Min(|samples|, |subscribers|))
    ensures posts.rows == old(posts.rows) + SeedRows(subscribers, samples, now, executes, i)
  {
    i := 0;
    while i < SeedSize && i < |samples| && i < |subscribers|
      invariant i <= SeedSize && i <= |samples| && i <= |subscribers|
      invariant posts.rows == old(posts.rows) + SeedRows(subscribers, samples, now, executes, i)
    {
      var subscriber := subscribers[i];
      var authorName := Trim(Users.OrElse(subscriber.firstName, "") + " " + Users.OrElse(subscriber.lastName, ""));
      var createdAt := now - (SeedSize - i) * Day;
      var post := Post(subscriber.id, authorName, samples[i].0, samples[i].1, Some(createdAt));
      assert post == SeedPost(subscribers, samples, now, i);
      var _ := posts.Insert(post, executes(i));
      i := i + 1;
    }
  }

  // ---------------------------------------------------------------- the forms

  /** The reply checks, each reported on its own. */
  function ReplyErrors(postId: int, body: string): (r: seq<string>)
    ensures (InvalidPost in r) <==> postId <= 0
    ensures (ReplyRequired in r) <==> body == ""
    ensures r == [] <==> postId > 0 && body != ""
  {
    (if postId <= 0 then [InvalidPost] else []) + (if body == "" then [ReplyRequired] else [])
  }

  /** The new-post checks, each reported on its own. */
  function PostErrors(title: string, body: string): (r: seq<string>)
    ensures (TitleRequired in r) <==> title == ""
    ensures (BodyRequired in r) <==> body == ""
    ensures r == [] <==> title != "" && body != ""
  {
    (if title == "" then [TitleRequired] else []) + (if body == "" then [BodyRequired] else [])
  }

  /** The reply checks as the page runs them, appending to the errors collected so far. */
  method CheckReply(before: seq<string>, postId: int, body: string) returns (errors: seq<string>)
    ensures errors == before + ReplyErrors(postId, body)
  {
    errors := before;
    if postId <= 0 {
      errors := errors + [InvalidPost];
    }
    assert errors == before + (if postId <= 0 then [InvalidPost] else []);
    if body == "" {
      errors := errors + [ReplyRequired];
    }
  }

  /** The new-post checks as the page runs them, appending to the errors collected so far. */
  method CheckPost(before: seq<string>, title: string, body: string) returns (errors: seq<string>)
    ensures errors == before + PostErrors(title, body)
  {
    errors := before;
    if title == "" {
      errors := errors + [TitleRequired];
    }
    assert errors == before + (if title == "" then [TitleRequired] else []);
    if body == "" {
      errors := errors + [BodyRequired];
    }
  }

  /** How the database steps of a submission fare. */
  datatype FormIo = FormIo(repliesTableCreated: bool, prepared: bool, executes: bool)

  /** The page after a POST: a redirect to the thread or to the forum, or the page with its errors. */
  datatype Outcome = ToThread(postId: int) | ToForum | Show(errors: seq<string>)

  function Text(s: Option<string>): string
  {
    if s.Some? then s.value else ""
  }

  /** The reply form. `setupErrors` are the errors the page collected before the POST. */
  method SubmitReply(csrf: Csrf.TokenStore, replies: Db.Table<Reply>, setupErrors: seq<string>,
                     token: Option<string>, postId: int, bodyPost: Option<string>, user: CurrentUser, io: FormIo)
    returns (outcome: Outcome)
    modifies csrf, replies
    ensures csrf.tokens == if Csrf.Accepts(old(csrf.tokens), "forum_reply", token)
                           then Csrf.Consume(old(csrf.tokens), "forum_reply", token.value) else old(csrf.tokens)
    ensures !Csrf.Accepts(old(csrf.tokens), "forum_reply", token) ==>
              outcome == Show(setupErrors + [InvalidForm]) && replies.rows == old(replies.rows)
    ensures Csrf.Accepts(old(csrf.tokens), "forum_reply", token) ==>
              var errors := setupErrors + ReplyErrors(postId, Trim(Text(bodyPost)));
              && (errors != [] ==> outcome == Show(errors) && replies.rows == old(replies.rows))
              && (errors == [] ==>
                    outcome == ReplySaveOutcome(io, postId)
                    && replies.rows == old(replies.rows)
                         + (if ReplySaved(io) then [Reply(postId, user.id, user.name, Trim(Text(bodyPost)))] else []))
    ensures outcome.ToThread? ==> outcome.postId > 0 && |replies.rows| == |old(replies.rows)| + 1
    ensures !outcome.ToForum?
  {
    var errors := setupErrors;
    var valid := csrf.Validate("forum_reply", token);
    if !valid {
      errors := errors + [InvalidForm];
      return Show(errors);
    }
    var body := Trim(Text(bodyPost));
    errors := CheckReply(errors, postId, body);
    if errors == [] {
      outcome := SaveReply(replies, Reply(postId, user.id, user.name, body), io);
    } else {
      outcome := Show(errors);
    }
  }

  /** Whether a reply without errors is stored: the table ensured, the statement prepared and executed. */
  predicate ReplySaved(io: FormIo)
  {
    io.repliesTableCreated && io.prepared && io.executes
  }

  /** Where a reply without errors leads: its thread once stored, otherwise the message of the step that failed. */
  function ReplySaveOutcome(io: FormIo, postId: int): (r: Outcome)
    ensures r.ToThread? <==> ReplySaved(io)
    ensures r.ToThread? ==> r.postId == postId
  {
    if !io.repliesTableCreated then Show([DatabaseError])
    else if !io.prepared then Show([Unexpected])
    else if io.executes then ToThread(postId)
    else Show([ReplyNotSaved])
  }

  /** The insert of a reply without errors: the table ensured, the statement prepared, then executed. */
  method SaveReply(replies: Db.Table<Reply>, reply: Reply, io: FormIo) returns (outcome: Outcome)
    modifies replies
    ensures outcome == ReplySaveOutcome(io, reply.postId)
    ensures replies.rows == old(replies.rows) + (if ReplySaved(io) then [reply] else [])
  {
    var errors: seq<string> := [];
    if !io.repliesTableCreated {
      errors := errors + [DatabaseError];
    } else if io.prepared {
      var inserted := replies.Insert(reply, io.executes);
      if inserted {
        return ToThread(reply.postId);
      }
      errors := errors + [ReplyNotSaved];
    } else {
      errors := errors + [Unexpected];
    }
    outcome := Show(errors);
  }

  /** The new-post form. */
  method SubmitPost(csrf: Csrf.TokenStore, posts: Db.Table<Post>, setupErrors: seq<string>,
                    token: Option<string>, titlePost: Option<string>, bodyPost: Option<string>,
                    user: CurrentUser, io: FormIo)
    returns (outcome: Outcome)
    modifies csrf, posts
    ensures csrf.tokens == if Csrf.Accepts(old(csrf.tokens), "forum_form", token)
                           then Csrf.Consume(old(csrf.tokens), "forum_form", token.value) else old(csrf.tokens)
    ensures !Csrf.Accepts(old(csrf.tokens), "forum_form", token) ==>
              outcome == Show(setupErrors + [InvalidForm]) && posts.rows == old(posts.rows)
    ensures Csrf.Accepts(old(csrf.tokens), "forum_form", token) ==>
              var errors := setupErrors + PostErrors(Sanitize(Text(titlePost)), Trim(Text(bodyPost)));
              && (errors != [] ==> outcome == Show(errors) && posts.rows == old(posts.rows))
              && (errors == [] ==>
                    outcome == PostSaveOutcome(io)
                    && posts.rows == old(posts.rows)
                         + (if PostSaved(io) then [Post(user.id, user.name, Sanitize(Text(titlePost)), Trim(Text(bodyPost)), None)] else []))
    ensures !outcome.ToThread?
  {
    var errors := setupErrors;
    var valid := csrf.Validate("forum_form", token);
    if !valid {
      errors := errors + [InvalidForm];
      return Show(errors);
    }
    var title := Sanitize(Text(titlePost));
    var body := Trim(Text(bodyPost));
    errors := CheckPost(errors, title, body);
    if errors == [] {
      outcome := SavePost(posts, Post(user.id, user.name, title, body, None), io);
    } else {
      outcome := Show(errors);
    }
  }

  /** Whether a post without errors is stored: the statement prepared and executed. */
  predicate PostSaved(io: FormIo)
  {
    io.prepared && io.executes
  }

  /** Where a post without errors leads: back to the forum once stored, otherwise the message of the step that failed. */
  function PostSaveOutcome(io: FormIo): (r: Outcome)
    ensures r == ToForum <==> PostSaved(io)
    ensures !r.ToThread?
  {
    if !io.prepared then Show([Unexpected]) else if io.executes then ToForum else Show([PostNotSaved])
  }

  /** The insert of a post without errors: the statement prepared, then executed. */
  method SavePost(posts: Db.Table<Post>, post: Post, io: FormIo) returns (outcome: Outcome)
    modifies posts
    ensures outcome == PostSaveOutcome(io)
    ensures posts.rows == old(posts.rows) + (if PostSaved(io) then [post] else [])
  {
    var errors: seq<string> := [];
    if io.prepared {
      var inserted := posts.Insert(post, io.executes);
      if inserted {
        return ToForum;
      }
      errors := errors + [PostNotSaved];
    } else {
      errors := errors + [Unexpected];
    }
    outcome := Show(errors);
  }

  /** The POST dispatch: `form_action` equal to "reply" sends a reply, anything else (or nothing) a new post. */
  method HandlePost(csrf: Csrf.TokenStore, posts: Db.Table<Post>, replies: Db.Table<Reply>, setupErrors: seq<string>,
                    formAction: Option<string>, token: Option<string>, postId: int, titlePost: Option<string>,
                    bodyPost: Option<string>, user: CurrentUser, io: FormIo)
    returns (outcome: Outcome)
    modifies csrf, posts, replies
    ensures formAction == Some("reply") ==> posts.rows == old(posts.rows) && !outcome.ToForum?
    ensures formAction != Some("reply") ==> replies.rows == old(replies.rows) && !outcome.ToThread?
    ensures formAction == Some("reply") ==>
              csrf.tokens == if Csrf.Accepts(old(csrf.tokens), "forum_reply", token)
                             then Csrf.Consume(old(csrf.tokens), "forum_reply", token.value) else old(csrf.tokens)
    ensures formAction != Some("reply") ==>
              csrf.tokens == if Csrf.Accepts(old(csrf.tokens), "forum_form", token)
                             then Csrf.Consume(old(csrf.tokens), "forum_form", token.value) else old(csrf.tokens)
    ensures formAction == Some("reply") && !Csrf.Accepts(old(csrf.tokens), "forum_reply", token) ==>
              outcome == Show(setupErrors + [InvalidForm]) && replies.rows == old(replies.rows)
    ensures formAction == Some("reply") && Csrf.Accepts(old(csrf.tokens), "forum_reply", token) ==>
              var errors := setupErrors + ReplyErrors(postId, Trim(Text(bodyPost)));
              && (errors != [] ==> outcome == Show(errors) && replies.rows == old(replies.rows))
              && (errors == [] ==>
                    outcome == ReplySaveOutcome(io, postId)
                    && replies.rows == old(replies.rows)
                         + (if ReplySaved(io) then [Reply(postId, user.id, user.name, Trim(Text(bodyPost)))] else []))
    ensures formAction != Some("reply") && !Csrf.Accepts(old(csrf.tokens), "forum_form", token) ==>
              outcome == Show(setupErrors + [InvalidForm]) && posts.rows == old(posts.rows)
    ensures formAction != Some("reply") && Csrf.Accepts(old(csrf.tokens), "forum_form", token) ==>
              var errors := setupErrors + PostErrors(Sanitize(Text(titlePost)), Trim(Text(bodyPost)));
              && (errors != [] ==> outcome == Show(errors) && posts.rows == old(posts.rows))
              && (errors == [] ==>
                    outcome == PostSaveOutcome(io)
                    && posts.rows == old(posts.rows)
                         + (if PostSaved(io) then [Post(user.id, user.name, Sanitize(Text(titlePost)), Trim(Text(bodyPost)), None)] else []))
  {
    if formAction == Some("reply") {
      outcome := SubmitReply(csrf, replies, setupErrors, token, postId, bodyPost, user, io);
    } else {
      outcome := SubmitPost(csrf, posts, setupErrors, token, titlePost, bodyPost, user, io);
    }
  }

  // ---------------------------------------------------------------- the list

  /** The length of a body shown in the list before it is cut. */
  const PreviewLength := 220

  /** A post's body in the list: the first 220 characters, and "..." when anything was cut. */
  function Preview(body: string): (r: string)
    ensures |body| <= PreviewLength ==> r == body
    ensures |body| > PreviewLength ==> |r| == PreviewLength + 3 && r[..PreviewLength] == body[..PreviewLength]
                                        && r[PreviewLength..] == "..."
    ensures |r| <= PreviewLength + 3
    ensures |r| < |body| <==> |body| > PreviewLength + 3
  {
    var shown := if |body| <= PreviewLength then body else body[..PreviewLength];
    shown + (if |body| > PreviewLength then "..." else "")
  }
}
