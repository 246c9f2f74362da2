/**
 * models/articlesModels.js: fetchArticles issues one query that left-joins
 * the comments table onto the articles table by article id, groups the join
 * by article id, counts the non-NULL comment ids of each group as
 * comment_count, and orders the groups newest first by created_at. Both
 * tables are sequences of rows here. article_id is the primary key of the
 * articles table, so each group is one article together with the comment
 * rows the join pairs with it.
 */
module ArticlesModel {
  import opened Wrappers
  import opened Schema
  import opened CommentsModel

  /** A result row: the article's stored columns (`articles.*`) and the
      derived comment_count. The JSON response flattens the two. */
  datatype ArticleRow = ArticleRow(article: Article, commentCount: nat)

  /** The join rows of one article: one per matching comment, or a single
      row with NULL comment columns when there is none (LEFT JOIN). */
  function JoinGroup(a: Article, comments: seq<Comment>): (g: seq<Option<Comment>>)
    ensures |g| > 0
  {
    var matched := CommentsOf(comments, a.articleId);
    if matched == [] then [None] else Lift(matched)
  }

  /** Wraps every matched comment as a non-NULL join row. */
  function Lift(cs: seq<Comment>): (g: seq<Option<Comment>>)
    ensures |g| == |cs|
  {
    if cs == [] then [] else [Some(cs[0])] + Lift(cs[1..])
  }

  /** The aggregate comment_count: the join rows whose comment id is not NULL. */
  function CountNonNull(g: seq<Option<Comment>>): (n: nat)
    ensures n <= |g|
  {
    if g == [] then 0 else (if g[0].Some? then 1 else 0) + CountNonNull(g[1..])
  }

  lemma {:induction false} CountNonNullLift(cs: seq<Comment>)
    ensures CountNonNull(Lift(cs)) == |cs|
  {
    if cs != [] {
      CountNonNullLift(cs[1..]);
      assert Lift(cs)[1..] == Lift(cs[1..]);
    }
  }

  /** The count over an article's join group is the number of stored comment
      rows with that article's id; it is 0 for an article without comments,
      whose NULL join row COUNT skips. */
  lemma GroupCountIsCommentCount(a: Article, comments: seq<Comment>)
    ensures CountNonNull(JoinGroup(a, comments)) == |MatchingPositions(comments, a.articleId)|
    ensures (forall c :: c in comments ==> c.articleId != a.articleId) ==> CountNonNull(JoinGroup(a, comments)) == 0
  {
    var matched := CommentsOf(comments, a.articleId);
    CommentsOfCount(comments, a.articleId);
    if matched != [] {
      CountNonNullLift(matched);
    }
  }

  /** The join grouped by article id: one row per article, in table order,
      carrying the count of its join group. */
  function Grouped(articles: seq<Article>, comments: seq<Comment>): (rows: seq<ArticleRow>)
    ensures |rows| == |articles|
    ensures forall i :: 0 <= i < |rows| ==> rows[i].article == articles[i]
  {
    seq(|articles|, i requires 0 <= i < |articles| =>
      ArticleRow(articles[i], CountNonNull(JoinGroup(articles[i], comments))))
  }

  /** Rows in non-increasing order of created_at. */
  ghost predicate SortedByCreatedDesc(rows: seq<ArticleRow>)
  {
    forall i, j :: 0 <= i < j < |rows| ==> rows[i].article.createdAt >= rows[j].article.createdAt
  }

  /** No row is newer than `t`. */
  ghost predicate NoneNewerThan(t: int, rows: seq<ArticleRow>)
  {
    forall i :: 0 <= i < |rows| ==> rows[i].article.createdAt <= t
  }

  /** Inserts a row before the first row that is not newer than it. */
  function Insert(x: ArticleRow, rows: seq<ArticleRow>): (r: seq<ArticleRow>)
    ensures |r| == |rows| + 1
  {
    if rows == [] then [x]
    else if rows[0].article.createdAt <= x.article.createdAt then [x] + rows
    else [rows[0]] + Insert(x, rows[1..])
  }

  lemma {:induction false} InsertPermutes(x: ArticleRow, rows: seq<ArticleRow>)
    ensures multiset(Insert(x, rows)) == multiset(rows) + multiset{x}
  {
    if rows != [] && rows[0].article.createdAt > x.article.createdAt {
      InsertPermutes(x, rows[1..]);
      assert rows == [rows[0]] + rows[1..];
    }
  }

  lemma {:induction false} InsertKeepsBound(t: int, x: ArticleRow, rows: seq<ArticleRow>)
    requires NoneNewerThan(t, rows) && x.article.createdAt <= t
    ensures NoneNewerThan(t, Insert(x, rows))
  {
    if rows != [] && rows[0].article.createdAt > x.article.createdAt {
      InsertKeepsBound(t, x, rows[1..]);
    }
  }

  lemma {:induction false} InsertKeepsOrder(x: ArticleRow, rows: seq<ArticleRow>)
    requires SortedByCreatedDesc(rows)
    ensures SortedByCreatedDesc(Insert(x, rows))
  {
    if rows != [] && rows[0].article.createdAt > x.article.createdAt {
      var head, tail := rows[0], rows[1..];
      InsertKeepsOrder(x, tail);
      InsertKeepsBound(head.article.createdAt, x, tail);
      var r := Insert(x, rows);
      assert r == [head] + Insert(x, tail);
      forall i, j | 0 <= i < j < |r|
        ensures r[i].article.createdAt >= r[j].article.createdAt
      {
        if i > 0 {
          assert r[i] == Insert(x, tail)[i - 1] && r[j] == Insert(x, tail)[j - 1];
        } else {
          assert r[j] == Insert(x, tail)[j - 1];
        }
      }
    }
  }

  /** The ordering clause, newest created_at first. SQL leaves the order of equal timestamps
      open; this sort keeps them in table order. */
  function SortByCreatedDesc(rows: seq<ArticleRow>): (r: seq<ArticleRow>)
    ensures |r| == |rows|
    ensures multiset(r) == multiset(rows)
    ensures SortedByCreatedDesc(r)
  {
    if rows == [] then []
    else
      var rest := SortByCreatedDesc(rows[1..]);
      InsertPermutes(rows[0], rest);
      InsertKeepsOrder(rows[0], rest);
      assert rows == [rows[0]] + rows[1..];
      Insert(rows[0], rest)
  }

  /** fetchArticles: one row per article with its comment count, newest
      first. It takes no parameters, so no topic, sort_by or order can
      influence it. */
  function FetchArticles(articles: seq<Article>, comments: seq<Comment>): (rows: seq<ArticleRow>)
    ensures |rows| == |articles|
    ensures multiset(rows) == multiset(Grouped(articles, comments))
    ensures SortedByCreatedDesc(rows)
  {
    SortByCreatedDesc(Grouped(articles, comments))
  }

  /** Every returned row is a stored article, unchanged, with comment_count
      equal to the number of comment rows carrying its article_id. */
  lemma RowsAreCountedArticles(articles: seq<Article>, comments: seq<Comment>, row: ArticleRow)
    requires row in FetchArticles(articles, comments)
    ensures row.article in articles
    ensures row.commentCount == |MatchingPositions(comments, row.article.articleId)|
  {
    var grouped := Grouped(articles, comments);
    assert row in multiset(grouped);
    var i :| 0 <= i < |grouped| && grouped[i] == row;
    assert row.article == articles[i];
    GroupCountIsCommentCount(row.article, comments);
  }

  /** Every stored article is listed, including one without comments, which
      the LEFT JOIN keeps with comment_count 0. */
  lemma EveryArticleListed(articles: seq<Article>, comments: seq<Comment>, a: Article)
    requires a in articles
    ensures ArticleRow(a, |MatchingPositions(comments, a.articleId)|) in FetchArticles(articles, comments)
  {
    var grouped := Grouped(articles, comments);
    var i :| 0 <= i < |articles| && articles[i] == a;
    GroupCountIsCommentCount(a, comments);
    assert grouped[i] == ArticleRow(a, |MatchingPositions(comments, a.articleId)|);
    assert grouped[i] in multiset(FetchArticles(articles, comments));
  }

  /** fetchArticles as articlesController.js calls it: with the topic that
      checkTopicExists resolved from the query's topic value, and the raw
      sort_by and order query values. The function declares no parameters,
      so JavaScript drops all three: no topic filter (every article is
      listed, with its comment count) and newest-first order whatever
      sort_by and order say. */
  function FetchArticlesCalledWith(articles: seq<Article>, comments: seq<Comment>,
                                   topic: Option<string>, sortBy: Option<string>, order: Option<string>): (rows: seq<ArticleRow>)
    ensures |rows| == |articles|
    ensures forall a :: a in articles ==> ArticleRow(a, |MatchingPositions(comments, a.articleId)|) in rows
    ensures forall i :: 0 <= i < |rows| ==> rows[i].article in articles
    ensures forall i :: 0 <= i < |rows| ==> rows[i].commentCount == |MatchingPositions(comments, rows[i].article.articleId)|
    ensures SortedByCreatedDesc(rows)
  {
    var rows := FetchArticles(articles, comments);
    forall i | 0 <= i < |rows|
      ensures rows[i].article in articles
      ensures rows[i].commentCount == |MatchingPositions(comments, rows[i].article.articleId)|
    {
      RowsAreCountedArticles(articles, comments, rows[i]);
    }
    forall a | a in articles
      ensures ArticleRow(a, |MatchingPositions(comments, a.articleId)|) in rows
    {
      EveryArticleListed(articles, comments, a);
    }
    rows
  }

  /** Two calls that differ only in topic, sort_by and order give the same rows. */
  lemma QueryValuesIgnored(articles: seq<Article>, comments: seq<Comment>,
                           topic1: Option<string>, sortBy1: Option<string>, order1: Option<string>,
                           topic2: Option<string>, sortBy2: Option<string>, order2: Option<string>)
    ensures FetchArticlesCalledWith(articles, comments, topic1, sortBy1, order1)
         == FetchArticlesCalledWith(articles, comments, topic2, sortBy2, order2)
  {
  }
}
