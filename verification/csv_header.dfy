/** The header line of the CSV download. */
module CsvHeader {
  import opened Text

  /** The column names, in output order. `created_utc` is not a column. */
  const Headers: seq<string> :=
    ["id", "title", "selftext", "subreddit", "score", "num_comments", "created_date", "url"]

  /** The first line of every download:
      `id,title,selftext,subreddit,score,num_comments,created_date,url`. */
  const HeaderLine: string :=
    "id" + "," + "title" + "," + "selftext" + "," + "subreddit" + ","
    + "score" + "," + "num_comments" + "," + "created_date" + "," + "url"

  /** The header line is the comma-join of the column names. It is peeled
      from the back, matching how `HeaderLine` is grouped. */
  lemma HeaderLineIsJoin()
    ensures Join(Headers, ',') == HeaderLine
  {
    var h := Headers;
    assert h[..2][..1] == ["id"];
    JoinSnoc(h[..2], ',');
    assert h[..3][..2] == h[..2];
    JoinSnoc(h[..3], ',');
    assert h[..4][..3] == h[..3];
    JoinSnoc(h[..4], ',');
    assert h[..5][..4] == h[..4];
    JoinSnoc(h[..5], ',');
    assert h[..6][..5] == h[..5];
    JoinSnoc(h[..6], ',');
    assert h[..7][..6] == h[..6];
    JoinSnoc(h[..7], ',');
    assert h[..7] == h[..|h| - 1];
    JoinSnoc(h, ',');
  }
}
