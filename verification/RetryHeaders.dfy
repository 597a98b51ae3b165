/** The retry counter as it travels in the message headers (rabbitmq.go). */
module RetryHeaders {

  const RETRY_COUNT := "x-retry-count"
  const DEATH_REASON := "x-dead-letter-reason"

  /** What an AMQP table may hold under a key; a Go int is as wide as an int64. */
  datatype Value = Int32(number: int) | Int64(number: int) | Int(number: int) | Text(text: string)

  type Table = map<string, Value>

  function ToInt32(n: int): int {
    (n + 0x8000_0000) % 0x1_0000_0000 - 0x8000_0000
  }

  function RetryCount(headers: Table): int {
    if RETRY_COUNT !in headers || headers[RETRY_COUNT].Text? then 0 else headers[RETRY_COUNT].number
  }

  function RetryHeaders(headers: Table): Table {
    map[RETRY_COUNT := Int32(ToInt32(RetryCount(headers) + 1))]
  }

  /** The headers of a copy: the old ones, overridden by the new ones. */
  function CopyHeaders(headers: Table, extra: Table): Table {
    headers + extra
  }

  lemma ToInt32Exact(n: int)
    ensures -0x8000_0000 <= ToInt32(n) < 0x8000_0000
    ensures ToInt32(n) == n <==> -0x8000_0000 <= n < 0x8000_0000
  {
  }

  /** A retry copy carries exactly one more than the original if and only if the sum fits 32 bits, and every other
      header; counts therefore rise strictly below any limit that fits. */
  lemma {:induction false} RetryCopyCounts(headers: Table, key: string)
    ensures var copy := CopyHeaders(headers, RetryHeaders(headers));
      && (RetryCount(copy) == RetryCount(headers) + 1 <==> -0x8000_0000 <= RetryCount(headers) + 1 < 0x8000_0000)
      && (key != "x-retry-count" ==> (key in copy <==> key in headers) && (key in headers ==> copy[key] == headers[key]))
      && "x-retry-count" in copy && copy["x-retry-count"].Int32?
  {
    ToInt32Exact(RetryCount(headers) + 1);
    var extra := RetryHeaders(headers);
    assert extra.Keys == {RETRY_COUNT};
  }

  /** The count is the integer under its key, of whatever width, and zero when there is none. */
  lemma {:induction false} RetryCountMeans(headers: Table, n: int)
    requires "x-retry-count" in headers ==>
               && headers["x-retry-count"] != Int32(n) && headers["x-retry-count"] != Int64(n) && headers["x-retry-count"] != Int(n)
    ensures n != 0 ==> RetryCount(headers) != n
    ensures RetryCount(headers["x-retry-count" := Int32(n)]) == RetryCount(headers["x-retry-count" := Int64(n)]) == n
    ensures RetryCount(headers["x-retry-count" := Int(n)]) == n
  {
  }

  /** A dead letter keeps the count and adds its reason. */
  lemma DeadLetterKeepsCount(headers: Table, reason: string)
    ensures var copy := CopyHeaders(headers, map[DEATH_REASON := Text(reason)]);
      RetryCount(copy) == RetryCount(headers) && DEATH_REASON in copy && copy["x-dead-letter-reason"] == Text(reason)
  {
    assert RETRY_COUNT[2] != DEATH_REASON[2];
  }
}
