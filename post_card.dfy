/** A feed post card (src/components/common/PostCard.tsx): the like toggle
    with its local counter, the image grid with its overflow overlay and the
    section badge. */
module PostCard {
  import opened Wrappers
  import opened Records
  import opened Seqs

  /** `getSectionLabel`. */
  function SectionLabel(section: string): (caption: string)
    ensures section !in {"sports", "food", "marketplace", "research", "career"} ==> caption == section
    ensures section in {"sports", "food", "marketplace", "research", "career"} ==>
              caption !in {"sports", "food", "marketplace", "research", "career"}
  {
    match section
    case "sports" => "スポーツ"
    case "food" => "ごはん"
    case "marketplace" => "フリマ"
    case "research" => "研究"
    case "career" => "就活"
    case _ => section
  }

  lemma SectionLabelsDistinct(a: string, b: string)
    requires a in {"sports", "food", "marketplace", "research", "career"}
    requires b in {"sports", "food", "marketplace", "research", "career"}
    requires a != b
    ensures SectionLabel(a) != SectionLabel(b)
  {
  }

  /** The first four images are drawn. */
  function ShownImages(images: seq<string>): (r: seq<string>)
    ensures |r| == Min(4, |images|) && r <= images
  {
    Take(images, 4)
  }

  /** The `+n` overlay on the image at `index`. */
  function Overlay(images: seq<string>, index: nat): (r: Option<nat>)
    ensures r.Some? <==> |images| > 4 && index == 3
  {
    if |images| > 4 && index == 3 then Some(|images| - 4) else None
  }

  /** The overlay sits on the last drawn image and counts exactly the hidden ones. */
  lemma OverlayCountsHidden(images: seq<string>, index: nat)
    requires Overlay(images, index).Some?
    ensures index == |ShownImages(images)| - 1
    ensures Overlay(images, index).value > 0
    ensures |ShownImages(images)| + Overlay(images, index).value == |images|
  {
  }

  /** No image drawn under a four-image limit gets an overlay. */
  lemma NoOverlayUpToFour(images: seq<string>, index: nat)
    requires |images| <= 4
    ensures Overlay(images, index).None?
  {
  }

  /** One click's effect on the pair (`liked`, `likeCount`). */
  datatype Likes = Likes(liked: bool, count: int)

  function Click(s: Likes): (r: Likes)
    ensures r.liked == !s.liked
    ensures s.liked ==> r.count == s.count - 1
    ensures !s.liked ==> r.count == s.count + 1
  {
    Likes(!s.liked, if s.liked then s.count - 1 else s.count + 1)
  }

  /** Two clicks restore both the flag and the count. */
  lemma ClickTwice(s: Likes)
    ensures Click(Click(s)) == s
  {
  }

  /** The count minus the viewer's own like never changes. */
  lemma ClickKeepsOthers(s: Likes)
    ensures Click(s).count - (if Click(s).liked then 1 else 0) == s.count - (if s.liked then 1 else 0)
  {
  }

  class PostCardView {
    const postId: string
    /** The `isLiked` prop and the post's stored like count. */
    const initiallyLiked: bool
    const storedLikes: int
    var liked: bool
    var likeCount: int
    /** The ids passed to `onLike`, oldest first. */
    var likeCalls: seq<string>

    /** The flag is the initial one flipped once per click, and the count
        moves with it. */
    ghost predicate Valid()
      reads this
    {
      (liked <==> (initiallyLiked != (|likeCalls| % 2 == 1))) &&
      likeCount - (if liked then 1 else 0) == storedLikes - (if initiallyLiked then 1 else 0) &&
      forall i :: 0 <= i < |likeCalls| ==> likeCalls[i] == postId
    }

    constructor (post: Post, isLiked: bool)
      ensures postId == post.id && initiallyLiked == isLiked && storedLikes == post.likes
      ensures liked == isLiked && likeCount == post.likes && likeCalls == []
      ensures Valid()
    {
      postId, initiallyLiked, storedLikes := post.id, isLiked, post.likes;
      liked, likeCount, likeCalls := isLiked, post.likes, [];
    }

    /** `handleLike`. */
    method HandleLike()
      requires Valid()
      modifies this
      ensures Likes(liked, likeCount) == Click(Likes(old(liked), old(likeCount)))
      ensures likeCalls == old(likeCalls) + [postId]
      ensures Valid()
    {
      ClickKeepsOthers(Likes(liked, likeCount));
      likeCount := if liked then likeCount - 1 else likeCount + 1;
      liked := !liked;
      likeCalls := likeCalls + [postId];
    }
  }
}
