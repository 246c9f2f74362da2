/**
 * models/commentsModels.js: fetchCommentsByArticleId selects every column
 * of the comment rows whose article id equals its argument, and rejects
 * with a 404 when no row comes back. The comments table is a sequence of
 * rows; the query is a filter over it. The query does not order its rows,
 * so the database promises no row order; the model keeps table order.
 */
module CommentsModel {
  import opened Wrappers
  import opened Schema
  import opened ErrorHandling

  /** The rejection fetchCommentsByArticleId settles with on an empty result. */
  const NoCommentsRejection: Rejection := Rejection(Some(NoCommentsMsg), None, Some(404))

  /** Positions of the rows of `table` whose article_id is `articleId`: the
      rows the query's condition (or the article join's condition) matches. */
  ghost function MatchingPositions(table: seq<Comment>, articleId: int): set<int>
  {
    set i | 0 <= i < |table| && table[i].articleId == articleId
  }

  /** The query's article-id condition over the comments table: every row with that
      article_id, unchanged and as often as it is stored, and no other row. */
  function CommentsOf(table: seq<Comment>, articleId: int): (rows: seq<Comment>)
    ensures forall c :: multiset(rows)[c] == if c.articleId == articleId then multiset(table)[c] else 0
    ensures forall c :: c in rows <==> c in table && c.articleId == articleId
    ensures |rows| <= |table|
  {
    if table == [] then []
    else
      var init, last := table[..|table| - 1], table[|table| - 1];
      assert table == init + [last];
      var rows := CommentsOf(init, articleId);
      if last.articleId == articleId then rows + [last] else rows
  }

  /** Adding a row to the end of the table adds one row to the filter's
      result exactly when the new row matches. */
  lemma CommentsOfLastRow(table: seq<Comment>, articleId: int)
    requires table != []
    ensures |CommentsOf(table, articleId)| ==
              |CommentsOf(table[..|table| - 1], articleId)| + if table[|table| - 1].articleId == articleId then 1 else 0
  {
  }

  /** Adding a row to the end of the table adds its position to the matching
      positions exactly when the new row matches. */
  lemma MatchingPositionsLastRow(table: seq<Comment>, articleId: int)
    requires table != []
    ensures |MatchingPositions(table, articleId)| ==
              |MatchingPositions(table[..|table| - 1], articleId)| + if table[|table| - 1].articleId == articleId then 1 else 0
  {
    var n := |table| - 1;
    var before := MatchingPositions(table[..n], articleId);
    var after := MatchingPositions(table, articleId);
    if table[n].articleId == articleId {
      assert after == before + {n};
    } else {
      assert after == before;
    }
  }

  /** The number of rows the filter returns is the number of stored comment
      rows with that article_id. */
  lemma {:induction false} CommentsOfCount(table: seq<Comment>, articleId: int)
    ensures |CommentsOf(table, articleId)| == |MatchingPositions(table, articleId)|
  {
    if table != [] {
      CommentsOfCount(table[..|table| - 1], articleId);
      CommentsOfLastRow(table, articleId);
      MatchingPositionsLastRow(table, articleId);
    }
  }

  /** fetchCommentsByArticleId: the matching rows, or the 404 rejection
      "No comments found for article" when there are none. */
  function FetchCommentsByArticleId(table: seq<Comment>, articleId: int): (r: Result<seq<Comment>, Rejection>)
    ensures r.Success? <==> exists c :: c in table && c.articleId == articleId
    ensures r.Success? ==> |r.value| > 0
    ensures r.Success? ==> forall c :: c in r.value ==> c in table && c.articleId == articleId
    ensures r.Success? ==> forall c :: c in table && c.articleId == articleId ==> c in r.value
    ensures r.Success? ==> forall c :: multiset(r.value)[c] == if c.articleId == articleId then multiset(table)[c] else 0
    ensures r.Failure? ==> r.error == NoCommentsRejection
  {
    var rows := CommentsOf(table, articleId);
    if |rows| == 0 then
      Failure(NoCommentsRejection)
    else
      assert rows[0] in rows;
      Success(rows)
  }

  /** An article without comments is answered 404 "No comments found for
      article" once the rejection reaches the error middleware. */
  lemma NoCommentsIsNotFound(table: seq<Comment>, articleId: int)
    requires forall c :: c in table ==> c.articleId != articleId
    ensures FetchCommentsByArticleId(table, articleId).Failure?
    ensures Respond(Raised(FetchCommentsByArticleId(table, articleId).error)) == Response(404, NoCommentsMsg)
  {
  }
}
