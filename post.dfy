/**
 * Posts (src/post.rs): the status, rating and file-format enumerations with
 * their parsers and display texts, the defaults, the multi-line `Display`
 * of a post, and the splitting of the `children` and `tags` fields of a
 * post's JSON description.
 */
module Post {
  import opened Wrappers
  import opened Decimal
  import opened Text
  import Json

  datatype Status = Active | Flagged | Pending | Deleted(reason: string)

  datatype Rating = Safe | Questionable | Explicit

  datatype Format = JPG | PNG | GIF | SWF | WEBM

  /** A UTC instant as seconds and nanoseconds since the Unix epoch. */
  datatype Timestamp = Timestamp(secs: i64, nanos: nat)

  datatype Post = Post(
    raw: string,
    id: u64,
    md5: Option<string>,
    status: Status,
    author: string,
    creatorId: Option<u64>,
    createdAt: Timestamp,
    artists: seq<string>,
    tags: seq<string>,
    rating: Rating,
    description: string,
    parentId: Option<u64>,
    children: seq<u64>,
    sources: seq<string>,
    hasNotes: bool,
    hasComments: bool,
    favCount: u64,
    score: i64,
    fileUrl: Option<string>,
    fileExt: Option<Format>,
    fileSize: Option<u64>,
    width: u64,
    height: u64,
    sampleUrl: Option<string>,
    sampleWidth: Option<u64>,
    sampleHeight: Option<u64>,
    previewUrl: Option<string>,
    previewWidth: Option<u64>,
    previewHeight: Option<u64>)

  /** `PostStatus::is_deleted`. */
  function IsDeleted(s: Status): (b: bool)
    ensures b <==> s.Deleted?
  {
    match s
    case Deleted(_) => true
    case _ => false
  }

  /** `Post::is_deleted`: whether the post's status says it is deleted. */
  function PostIsDeleted(p: Post): (b: bool)
    ensures b <==> IsDeleted(p.status)
    ensures b <==> p.status.Deleted?
  {
    IsDeleted(p.status)
  }

  /**
   * `PostStatus::try_from((&str, Option<&str>))`: the four status words the
   * server uses; a deleted post keeps the given reason, or "" without one.
   * Any other word is refused.
   */
  function ParseStatus(v: string, delreason: Option<string>): (r: Option<Status>)
    ensures r.Some? <==> v == "active" || v == "flagged" || v == "pending" || v == "deleted"
    ensures r.Some? ==> (IsDeleted(r.value) <==> v == "deleted")
    ensures v == "active" ==> r == Some(Active)
    ensures v == "flagged" ==> r == Some(Flagged)
    ensures v == "pending" ==> r == Some(Pending)
    ensures v == "deleted" ==> r == Some(Deleted(delreason.GetOr("")))
  {
    match v
    case "active" => Some(Active)
    case "flagged" => Some(Flagged)
    case "pending" => Some(Pending)
    case "deleted" => Some(Deleted(delreason.GetOr("")))
    case _ => None
  }

  /** `PostStatus::try_from((&JsonValue, Option<&str>))`: only a JSON string can be a status. */
  function StatusFromJson(v: Json.Value, delreason: Option<string>): (r: Option<Status>)
    ensures !v.String? ==> r.None?
    ensures v.String? ==> r == ParseStatus(v.s, delreason)
  {
    match Json.AsStr(v)
    case Some(s) => ParseStatus(s, delreason)
    case None => None
  }

  /** `PostRating::try_from(&str)`: the one-letter rating codes. */
  function ParseRating(v: string): (r: Option<Rating>)
    ensures r.Some? <==> v == "s" || v == "q" || v == "e"
  {
    match v
    case "s" => Some(Safe)
    case "q" => Some(Questionable)
    case "e" => Some(Explicit)
    case _ => None
  }

  /** `PostRating::try_from(&JsonValue)`: only a JSON string can be a rating. */
  function RatingFromJson(v: Json.Value): (r: Option<Rating>)
    ensures !v.String? ==> r.None?
    ensures v.String? ==> r == ParseRating(v.s)
  {
    match Json.AsStr(v)
    case Some(s) => ParseRating(s)
    case None => None
  }

  /** The `Display` text of a rating: the whole word. */
  function RatingText(r: Rating): (t: string)
    ensures |t| > 1
  {
    match r
    case Explicit => "explicit"
    case Questionable => "questionable"
    case Safe => "safe"
  }

  /** The displayed word starts with the rating's code letter, so its first letter parses back to it. */
  lemma RatingInitialParses(r: Rating)
    ensures ParseRating(RatingText(r)[..1]) == Some(r)
  {
    match r
    case Explicit => assert RatingText(r)[..1] == "e";
    case Questionable => assert RatingText(r)[..1] == "q";
    case Safe => assert RatingText(r)[..1] == "s";
  }

  /** The displayed word itself is not a rating code: display and parse are not inverse. */
  lemma RatingTextNotParsed(r: Rating)
    ensures ParseRating(RatingText(r)) == None
  {
  }

  /** `PostFormat::try_from(&str)`: the lower-case file extensions. */
  function ParseFormat(v: string): (r: Option<Format>)
    ensures r.Some? <==> v == "jpg" || v == "png" || v == "gif" || v == "swf" || v == "webm"
  {
    match v
    case "jpg" => Some(JPG)
    case "png" => Some(PNG)
    case "gif" => Some(GIF)
    case "swf" => Some(SWF)
    case "webm" => Some(WEBM)
    case _ => None
  }

  /** `PostFormat::try_from(&JsonValue)`: only a JSON string can be a format. */
  function FormatFromJson(v: Json.Value): (r: Option<Format>)
    ensures !v.String? ==> r.None?
    ensures v.String? ==> r == ParseFormat(v.s)
  {
    match Json.AsStr(v)
    case Some(s) => ParseFormat(s)
    case None => None
  }

  /**
   * The `Display` text of a format: the upper-case extension. Upper-case
   * letters only, and with `FormatTextRoundTrip` this fixes the text as the
   * upper-case form of the extension `ParseFormat` accepts.
   */
  function FormatText(f: Format): (r: string)
    ensures 3 <= |r| <= 4
    ensures forall i :: 0 <= i < |r| ==> 'A' <= r[i] <= 'Z'
  {
    match f
    case JPG => "JPG"
    case PNG => "PNG"
    case GIF => "GIF"
    case SWF => "SWF"
    case WEBM => "WEBM"
  }

  /** ASCII lower-casing, letter by letter. */
  function Lower(s: string): (r: string)
    ensures |r| == |s|
  {
    if s == [] then []
    else [if 'A' <= s[0] <= 'Z' then (s[0] as int + 32) as char else s[0]] + Lower(s[1..])
  }

  /** Parsing is case-sensitive: the displayed extension is refused, and its lower-case form parses back. */
  lemma FormatTextRoundTrip(f: Format)
    ensures ParseFormat(FormatText(f)) == None
    ensures ParseFormat(Lower(FormatText(f))) == Some(f)
  {
    match f
    case JPG => assert Lower("JPG") == "jpg";
    case PNG => assert Lower("PNG") == "png";
    case GIF => assert Lower("GIF") == "gif";
    case SWF => assert Lower("SWF") == "swf";
    case WEBM => assert Lower("WEBM") == "webm";
  }

  /** `PostStatus::default()`. */
  const DefaultStatus: Status := Pending

  /** `PostRating::default()`: a default rating means little, so the strictest one. */
  const DefaultRating: Rating := Explicit

  /** `Post::default()`: every field zero, empty or None, created at the epoch, status pending, rating explicit. */
  function DefaultPost(): (p: Post)
    ensures p.status == Pending && !PostIsDeleted(p) && p.rating == Explicit
    ensures p.id == 0 && p.artists == [] && p.tags == [] && p.children == [] && p.fileExt.None?
  {
    Post("", 0, None, DefaultStatus, "", None, Timestamp(0, 0), [], [], DefaultRating, "",
         None, [], [], false, false, 0, 0, None, None, None, 0, 0, None, None, None, None, None, None)
  }

  /**
   * The artist part of a post's display: names separated by ", " except
   * the last two, which are joined by " and ", and a line break after the
   * last one; nothing at all when there are no artists.
   */
  function ArtistList(artists: seq<string>): (r: string)
    ensures r == [] <==> artists == []
    ensures artists != [] ==> r[|r| - 1] == '\n'
  {
    if |artists| == 0 then "" else artists[0] + Separator(|artists|) + ArtistList(artists[1..])
  }

  /** What follows a name when `left` names, that one included, are still to be written. */
  function Separator(left: nat): (sep: string)
    ensures sep != []
  {
    if left == 1 then "\n" else if left == 2 then " and " else ", "
  }

  /** The first line of a post's display. */
  function Headline(p: Post): string
  {
    match p.status
    case Deleted(reason) => "#" + Dec(p.id) + " (deleted: " + reason + ")\n"
    case _ => "#" + Dec(p.id) + " by " + ArtistList(p.artists)
  }

  /** The lines that follow the headline. */
  function Details(p: Post, showTime: Timestamp -> string): string
  {
    "Rating: " + RatingText(p.rating) + "\n" +
    "Score: " + DecSigned(p.score) + "\n" +
    "Favs: " + Dec(p.favCount) + "\n" +
    (if p.fileExt.Some? then "Type: " + FormatText(p.fileExt.value) + "\n" else "") +
    "Created at: " + showTime(p.createdAt) + "\n" +
    "Tags: " + Join(p.tags, ", ") + "\n" +
    "Description: " + p.description
  }

  /** `Display for Post`; `showTime` stands for the display of a UTC timestamp. */
  function PostText(p: Post, showTime: Timestamp -> string): string
  {
    Headline(p) + Details(p, showTime)
  }

  /**
   * The artist loop of `Display for Post`: an indexed loop that writes each
   * name followed by what the number of names still to come calls for.
   */
  method WriteArtists(artists: seq<string>) returns (out: string)
    ensures out == ArtistList(artists)
  {
    out := "";
    var count := |artists|;
    for i := 0 to count
      invariant out + ArtistList(artists[i..]) == ArtistList(artists)
    {
      WriteStep(out, artists, i);
      match count - i
      case 1 =>
        out := out + artists[i] + "\n";
      case 2 =>
        out := out + artists[i] + " and ";
      case _ =>
        out := out + artists[i] + ", ";
    }
    assert artists[count..] == [];
  }

  /** The artist list from the i-th name on is that name, its separator and the rest. */
  lemma ArtistListFrom(artists: seq<string>, i: nat)
    requires i < |artists|
    ensures ArtistList(artists[i..]) == artists[i] + Separator(|artists| - i) + ArtistList(artists[i + 1..])
  {
    assert artists[i..][1..] == artists[i + 1..];
  }

  /** Writing the i-th name and its separator keeps what is written a prefix of the whole list. */
  lemma WriteStep(written: string, artists: seq<string>, i: nat)
    requires i < |artists|
    requires written + ArtistList(artists[i..]) == ArtistList(artists)
    ensures written + artists[i] + Separator(|artists| - i) + ArtistList(artists[i + 1..]) == ArtistList(artists)
  {
    var sep, rest := Separator(|artists| - i), ArtistList(artists[i + 1..]);
    ArtistListFrom(artists, i);
    Regroup(written, artists[i], sep, rest);
  }

  /** `Display for Post`: the headline, with the artists written by the loop, and then the details. */
  method DisplayPost(p: Post, showTime: Timestamp -> string) returns (text: string)
    ensures text == PostText(p, showTime)
  {
    if p.status.Deleted? {
      text := "#" + Dec(p.id) + " (deleted: " + p.status.reason + ")\n";
    } else {
      var names := WriteArtists(p.artists);
      text := "#" + Dec(p.id) + " by " + names;
    }
    text := text + Details(p, showTime);
  }

  /**
   * The artist list, stated without the count of names left: one name
   * alone, or all but the last joined by ", " and then " and " the last.
   */
  lemma {:induction false} ArtistListJoined(artists: seq<string>)
    requires |artists| >= 2
    ensures ArtistList(artists) == Join(artists[..|artists| - 1], ", ") + " and " + artists[|artists| - 1] + "\n"
    decreases |artists|
  {
    var n := |artists|;
    if n == 2 {
      assert ArtistList(artists) == artists[0] + " and " + (artists[1] + "\n") by {
        assert ArtistList(artists[1..]) == artists[1] + "\n" + "";
      }
      assert artists[..1] == [artists[0]];
      Assoc(artists[0] + " and ", artists[1], "\n");
    } else {
      var rest := artists[1..];
      var w, tail := artists[0] + ", ", Join(rest[..|rest| - 1], ", ");
      ArtistListJoined(rest);
      assert rest[..|rest| - 1] == artists[..n - 1][1..];
      assert rest[|rest| - 1] == artists[n - 1];
      assert Join(artists[..n - 1], ", ") == w + tail;
      Regroup(w, tail + " and ", artists[n - 1], "\n");
      Assoc(w, tail, " and ");
    }
  }

  /** A deleted post shows its reason instead of its artists: the artist list does not affect its text. */
  lemma DeletedIgnoresArtists(p: Post, artists: seq<string>, showTime: Timestamp -> string)
    requires p.status.Deleted?
    ensures PostText(p.(artists := artists), showTime) == PostText(p, showTime)
    ensures PostText(p, showTime)[..|Headline(p)|] == "#" + Dec(p.id) + " (deleted: " + p.status.reason + ")\n"
  {
    assert Headline(p.(artists := artists)) == Headline(p);
  }

  /**
   * The default post, which has no artist, writes no line break after
   * " by ": its rating line follows on the same line, and it has no "Type"
   * line.
   */
  lemma DefaultPostText(showTime: Timestamp -> string)
    ensures PostText(DefaultPost(), showTime) ==
      "#0 by " + "Rating: explicit\nScore: 0\nFavs: 0\nCreated at: " + showTime(Timestamp(0, 0)) + "\nTags: \nDescription: "
  {
    var p := DefaultPost();
    assert Headline(p) == "#0 by " by {
      assert Dec(0) == "0";
    }
    DefaultDetails(showTime);
    Regroup("#0 by ", "Rating: explicit\nScore: 0\nFavs: 0\nCreated at: ", showTime(Timestamp(0, 0)), "\nTags: \nDescription: ");
  }

  /** The lines after the default post's headline. */
  lemma DefaultDetails(showTime: Timestamp -> string)
    ensures Details(DefaultPost(), showTime) ==
      "Rating: explicit\nScore: 0\nFavs: 0\nCreated at: " + showTime(Timestamp(0, 0)) + "\nTags: \nDescription: "
  {
    var p := DefaultPost();
    assert RatingText(p.rating) == "explicit" && DecSigned(p.score) == "0" && Dec(p.favCount) == "0";
    assert Join(p.tags, ", ") == "" && p.description == "";
    var head := "Rating: " + "explicit" + "\n" + "Score: " + "0" + "\n" + "Favs: " + "0" + "\n" + "" + "Created at: ";
    var u := head + showTime(p.createdAt);
    assert Details(p, showTime) == u + "\n" + "Tags: " + "" + "\n" + "Description: " + "";
    Regroup(u + "\n", "Tags: ", "\n", "Description: ");
    Regroup(u, "\n", "Tags: ", "\n" + "Description: ");
    DefaultDetailsLiterals();
  }

  /**
   * Proof step of `DefaultDetails`: the literal pieces of the details lines
   * concatenate to the single literals stated there.
   */
  lemma DefaultDetailsLiterals()
    ensures "Rating: " + "explicit" + "\n" + "Score: " + "0" + "\n" + "Favs: " + "0" + "\n" + "" + "Created at: " ==
            "Rating: explicit\nScore: 0\nFavs: 0\nCreated at: "
    ensures "\n" + "Tags: " + ("\n" + "Description: ") == "\nTags: \nDescription: "
  {
    assert "Rating: " + "explicit" + "\n" == "Rating: explicit\n";
    assert "Rating: explicit\n" + "Score: " + "0" + "\n" == "Rating: explicit\nScore: 0\n";
    assert "Rating: explicit\nScore: 0\n" + "Favs: " + "0" + "\n" == "Rating: explicit\nScore: 0\nFavs: 0\n";
    assert "Rating: explicit\nScore: 0\nFavs: 0\n" + "" + "Created at: " == "Rating: explicit\nScore: 0\nFavs: 0\nCreated at: ";
  }

  /** Each comma-separated child id parsed as `u64`; None where `unwrap` would panic on a part that is not one. */
  function ParseIds(parts: seq<string>): (r: Option<seq<u64>>)
    ensures r.Some? ==> |r.value| == |parts| && forall i :: 0 <= i < |parts| ==> ParseU64(parts[i]) == Ok(r.value[i])
    ensures r.None? ==> exists i :: 0 <= i < |parts| && ParseU64(parts[i]).Err?
  {
    if parts == [] then Some([])
    else
      match (ParseU64(parts[0]), ParseIds(parts[1..]))
      case (Ok(id), Some(ids)) => Some([id] + ids)
      case (Err(_), _) => None
      case (_, None) => None
  }

  /**
   * The `children` field of a post's description: no children when it is
   * missing, not a string, or empty; otherwise its comma-separated ids.
   */
  function ChildrenField(post: Json.Value): (r: Option<seq<u64>>)
    ensures Json.AsStr(Json.Index(post, "children")) in {None, Some("")} ==> r == Some([])
    ensures (match Json.AsStr(Json.Index(post, "children")) case Some(c) => c != "" case None => false) ==>
              r == ParseIds(Split(Json.Index(post, "children").s, ','))
  {
    match Json.AsStr(Json.Index(post, "children"))
    case None => Some([])
    case Some(c) => if c == [] then Some([]) else ParseIds(Split(c, ','))
  }


  lemma ParseIdsCons(part: string, id: u64, parts: seq<string>, ids: seq<u64>)
    requires ParseU64(part) == Ok(id) && ParseIds(parts) == Some(ids)
    ensures ParseIds([part] + parts) == Some([id] + ids)
  {
    assert ([part] + parts)[0] == part && ([part] + parts)[1..] == parts;
  }

  /** The decimal texts of some ids parse back to those ids. */
  lemma {:induction false} ParseIdsDecAll(ids: seq<u64>)
    ensures ParseIds(DecAll(ids)) == Some(ids)
    decreases |ids|
  {
    if ids != [] {
      ParseDec(ids[0], U64Max);
      ParseIdsDecAll(ids[1..]);
      ParseIdsCons(Dec(ids[0]), ids[0], DecAll(ids[1..]), ids[1..]);
      assert DecAll(ids) == [Dec(ids[0])] + DecAll(ids[1..]);
      assert [ids[0]] + ids[1..] == ids;
    }
  }

  /** A list of child ids written as the server writes it, comma-separated, is read back exactly. */
  lemma ChildrenRoundTrip(post: Json.Value, ids: seq<u64>)
    requires Json.Index(post, "children") == Json.String(Join(DecAll(ids), ","))
    ensures ChildrenField(post) == Some(ids)
  {
    if ids == [] {
      return;
    }
    var parts := DecAll(ids);
    forall i | 0 <= i < |parts|
      ensures ',' !in parts[i]
    {
      assert AllDigits(parts[i]);
    }
    SplitJoin(parts, ',');
    ParseIdsDecAll(ids);
  }

  /** An empty part, as in a trailing comma, is not an id: reading such a field panics. */
  lemma ChildrenTrailingComma(post: Json.Value)
    requires Json.Index(post, "children") == Json.String("7,")
    ensures ChildrenField(post) == None
  {
    SplitAfter("7", "", ',');
    assert "7" + [','] + "" == "7,";
    assert Split("7,", ',') == ["7", ""];
    assert ParseU64("") == Err(Empty);
  }

  /**
   * The `tags` field: its text split on whitespace, so the tags are the
   * non-empty whitespace-free runs and together spell the text without its
   * whitespace; a missing or non-string field has no tags.
   */
  function TagsField(post: Json.Value): (r: Option<seq<string>>)
    ensures r.Some? <==> Json.Index(post, "tags").String?
    ensures r.Some? ==> Concat(r.value) == Visible(Json.Index(post, "tags").s)
    ensures r.Some? ==> forall i :: 0 <= i < |r.value| ==> r.value[i] != "" && NoWhitespace(r.value[i])
  {
    match Json.AsStr(Json.Index(post, "tags"))
    case None => None
    case Some(t) =>
      SplitWhitespaceKeepsVisible(t);
      Some(SplitWhitespace(t))
  }

  /** Tags written as the server writes them, separated by single spaces, are read back exactly. */
  lemma TagsRoundTrip(post: Json.Value, tags: seq<string>)
    requires forall i :: 0 <= i < |tags| ==> tags[i] != "" && NoWhitespace(tags[i])
    requires Json.Index(post, "tags") == Json.String(Join(tags, " "))
    ensures TagsField(post) == Some(tags)
  {
    SplitWhitespaceJoin(tags);
  }

  /**
   * The `status` field as the source reads it: the closure that parses the
   * status looks up "delreason" in the status value itself, which is a
   * string, not in the post.
   */
  function StatusFieldAsWritten(post: Json.Value): (r: Option<Status>)
    ensures r == StatusFromJson(Json.Index(post, "status"), None)
  {
    var v := Json.Index(post, "status");
    StatusFromJson(v, Json.AsStr(Json.Index(v, "delreason")))
  }

  /** As written, a deleted post never keeps its reason, whatever the description says. */
  lemma DelreasonLost(post: Json.Value)
    requires StatusFieldAsWritten(post).Some? && StatusFieldAsWritten(post).value.Deleted?
    ensures StatusFieldAsWritten(post) == Some(Deleted(""))
  {
  }

  /** The `status` field with the reason looked up in the post, as the deleted-status parser expects. */
  function StatusField(post: Json.Value): (r: Option<Status>)
    ensures r.Some? <==>
      (Json.Index(post, "status").String? && Json.Index(post, "status").s in {"active", "flagged", "pending", "deleted"})
    ensures r.Some? && r.value.Deleted? ==> r.value.reason == Json.AsStr(Json.Index(post, "delreason")).GetOr("")
  {
    StatusFromJson(Json.Index(post, "status"), Json.AsStr(Json.Index(post, "delreason")))
  }

  /** Read from the post, a deleted post keeps its reason. */
  lemma StatusFieldKeepsReason(post: Json.Value, reason: string)
    requires Json.Index(post, "status") == Json.String("deleted")
    requires Json.Index(post, "delreason") == Json.String(reason)
    ensures StatusField(post) == Some(Deleted(reason))
    ensures StatusFieldAsWritten(post) == Some(Deleted(""))
  {
  }
}
