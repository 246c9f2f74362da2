/**
 * Rows of the two tables the core reads. The database engine, its schema
 * file and the seed data are not part of this model; only the columns the
 * queries return are kept. Timestamps are integers (seconds since an epoch).
 */
module Schema {

  /** A row of the `articles` table (columns article_id, title, topic,
      author, body, created_at, votes, article_img_url). */
  datatype Article = Article(
    articleId: int,
    title: string,
    topic: string,
    author: string,
    body: string,
    createdAt: int,
    votes: int,
    articleImgUrl: string)

  /** A row of the `comments` table (columns comment_id, article_id,
      author, body, votes, created_at). */
  datatype Comment = Comment(
    commentId: int,
    articleId: int,
    author: string,
    body: string,
    votes: int,
    createdAt: int)
}
