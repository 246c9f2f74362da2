# be-nc-news: error classification and two read queries

This project models three pieces of a small Express/PostgreSQL news API and
proves properties about them in Dafny:

- **Error classification.** The tail of the Express middleware stack works
  like this. A request that no route answered gets 404 "Path not found".
  An error a route forwards with `next(err)` is offered to three error
  handlers in order: custom messages first, then known PostgreSQL SQLSTATE
  codes, then a catch-all 500. `ErrorHandling.Respond` is that chain. It is
  built from one function per handler and a generic first-answer-wins runner
  (`ErrorHandling.RunChain`).
- **Comments of an article** (`fetchCommentsByArticleId`). The comments
  table is a sequence of rows and the query is a filter on `article_id`. An
  empty result becomes the rejection `{status: 404, msg: "No comments found
  for article"}`. The function returns a `Result`.
- **Article listing** (`fetchArticles`). The query left-joins the comments
  onto the articles, groups by article id, counts the non-NULL comment ids
  as `comment_count` and orders by `created_at` descending. It is modelled
  step by step: the join group of each article (`JoinGroup`), the count
  (`CountNonNull`), one row per article (`Grouped`) and an insertion sort
  (`SortByCreatedDesc`).

All three are pure functions over values. The database is two sequences of
rows (`Schema.Article`, `Schema.Comment`). Timestamps are integers and
`comment_count` is a `nat`.

Two behaviours one might expect of such an API are absent from the code,
and the model follows the code:
- `fetchArticles` declares no parameters (models/articlesModels.js:3), yet
  the controller calls it with the resolved topic and the `sort_by` and
  `order` query values (controllers/articlesController.js:15). JavaScript
  drops those arguments. There is no topic filter, no
  allow-list check and no choice of sort column.
- `fetchCommentsByArticleId` rejects with 404 when an article has no
  comments. It does not return an empty list. Its query has no ordering
  clause, so the model keeps table order. It does not sort by `created_at`.

## Model

| member | source | states |
|---|---|---|
| ErrorHandling.HandleNonExistentPath | errors/errorHandling.js:1-3 | a request no route matched is answered with status 404 |
| ErrorHandling.HandleCustomErrors | errors/errorHandling.js:5-13 | answers exactly the errors whose msg is "No article found" or "No comments found for article", with 404 and the same msg echoed; passes every other error on |
| ErrorHandling.HandlePsql400s | errors/errorHandling.js:15-23 | answers exactly the codes 22P02, 42703, 23502 and 23503: 400 "Bad Request" for the first three, 404 "Not found" for 23503; passes every other error, and errors without a code, on |
| ErrorHandling.HandleServerError | errors/errorHandling.js:25-27 | every error that reaches it is answered with 500 |
| ErrorHandling.Apply | errors/errorHandling.js:5-27 | the catch-all handler always answers; every handler's status is 400, 404 or 500 |
| ErrorHandling.RunChain | app.js:53-55 | Express's next(err) chain: no answer exactly when no handler answers; otherwise the answer of the first handler that answers, all earlier ones having passed; always an answer when the catch-all is in the chain |
| ErrorHandling.Respond | app.js:51-55 | the application's answer is total, and every status it sends is 400, 404 or 500 |
| ErrorHandling.AppChainOrder | app.js:53-55 | with the handlers registered in app.js order, the custom-message answer wins, then the SQLSTATE answer, then the 500 |
| ErrorHandling.UnmatchedPathIsNotFound | errors/errorHandling.js:1-3 | an unmatched path gets 404 "Path not found" |
| ErrorHandling.CustomMessageTakesPrecedence | errors/errorHandling.js:5-13 | an error carrying either custom msg gets 404 with that msg, whatever its code and status |
| ErrorHandling.BadRequestCodesGive400 | errors/errorHandling.js:16-17 | without a custom msg, codes 22P02, 42703 and 23502 give 400 "Bad Request" |
| ErrorHandling.ForeignKeyViolationGives404 | errors/errorHandling.js:18-19 | without a custom msg, code 23503 gives 404 "Not found" |
| ErrorHandling.OtherErrorsGive500 | errors/errorHandling.js:20-27 | any other error, including rejections with another msg and unknown codes, gives 500 "Internal Server Error!" |
| ErrorHandling.ErrorStatusTable | errors/errorHandling.js:5-27 | for every error: 404 iff custom msg or code 23503; 400 iff no custom msg and a bad-request code; 500 iff neither |
| ErrorHandling.StatusFieldIgnored | errors/errorHandling.js:5-23 | the response depends only on msg and code, never on the error's own status |
| ErrorHandling.HandlerOrderMatters | app.js:53-54 | with the two handlers swapped, a "No article found" error with code 23503 would get "Not found" instead of its own msg |
| CommentsModel.CommentsOf | models/commentsModels.js:5-7 | the filter returns every stored row with the requested article_id, unchanged and as many times as it is stored, and no other row |
| CommentsModel.CommentsOfCount | models/commentsModels.js:5 | the number of rows returned is the number of positions in the table holding a comment with that article_id |
| CommentsModel.FetchCommentsByArticleId | models/commentsModels.js:3-15 | succeeds iff some stored comment has the article_id; on success the rows are non-empty, all have that article_id, none is dropped and all are stored rows unchanged; otherwise rejects with status 404 and msg "No comments found for article" |
| CommentsModel.NoCommentsIsNotFound | models/commentsModels.js:8-13 | an article without comments ends as the response 404 "No comments found for article" |
| ArticlesModel.JoinGroup | models/articlesModels.js:6 | the left join gives every article at least one join row |
| ArticlesModel.CountNonNull | models/articlesModels.js:6 | the count of non-NULL comment ids never exceeds the group's size |
| ArticlesModel.GroupCountIsCommentCount | models/articlesModels.js:6 | an article's count equals the number of comment rows with its article_id; it is 0 for an article without comments |
| ArticlesModel.Grouped | models/articlesModels.js:6 | grouping by article id gives one row per article, carrying that article's stored fields |
| ArticlesModel.SortByCreatedDesc | models/articlesModels.js:6 | the ordering step returns a permutation of its rows, in non-increasing created_at order |
| ArticlesModel.FetchArticles | models/articlesModels.js:3-11 | exactly one row per article (same length, same rows as the grouping as a multiset), sorted newest first by created_at |
| ArticlesModel.RowsAreCountedArticles | models/articlesModels.js:6 | every returned row is a stored article, unchanged, and its comment_count is the number of comment rows with its article_id |
| ArticlesModel.EveryArticleListed | models/articlesModels.js:6 | every stored article appears with its comment count, including articles with no comments (count 0) |
| ArticlesModel.FetchArticlesCalledWith | controllers/articlesController.js:15 | whatever topic, sort_by and order are passed: one row per article, every article listed with the number of comment rows carrying its article_id, every row a stored article with that count, newest first by created_at |
| ArticlesModel.QueryValuesIgnored | models/articlesModels.js:3 | two calls that differ only in topic, sort_by and order return the same rows |

## Left out

- Express routing, CORS and JSON body parsing (app.js:29-49). The framework matches the routes and is not part of this model. Only the handler order of app.js:51-55 is kept.
- Error values that are falsy (a rejection with `undefined` or `null`). Express sends only truthy errors to error middleware. Errors that fall off the end of a chain without the catch-all are `None` in `RunChain`; Express's own default handler is not part of this model.
- Error values are reduced to the fields the handlers read: `msg` and `code`, both optional strings, and an optional `status`. JavaScript property access on other shapes is not modelled.
- The controllers (controllers/articlesController.js, controllers/commentsController.js). They only forward parameters and results. Their `Promise.all` runs two queries at once, and which rejection wins depends on timing. The one call kept is the ignored-argument call at controllers/articlesController.js:15.
- `checkTopicExists`, `fetchArticleByArticleId`, `updateVotes`, `insertComment`, `removeCommentById`: their bodies are not part of this model.
- The connection pool, the `pg` driver, the seed data and the test harness: these are I/O.
- The conversion of the `:article_id` path text to an integer. The database does this conversion and raises SQLSTATE 22P02 on malformed text. Here the article id is already an integer; the classification of 22P02 is in `ErrorHandling`.
- FetchCommentsByArticleId: takes the article id as an unbounded `int`, so it does not capture PostgreSQL's 32-bit `integer` parameter. An id outside that range (such as "99999999999") raises SQLSTATE 22003 (numeric_value_out_of_range); `handlePSQL400s` passes it on, and the answer is 500 "Internal Server Error!", where the model returns `NoCommentsRejection`, answered 404.
- SQL engine details: NULL semantics beyond the left join's NULL row, timestamp parsing, and `COUNT` being sent to the client as a string. `comment_count` is a `nat` and `created_at` an `int`.
- The order of rows SQL leaves open. The comments query has no ordering clause, and `fetchArticles` does not order articles with equal `created_at`. The model keeps table order in both cases, and no contract promises either order.
