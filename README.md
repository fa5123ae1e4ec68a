# Stress questionnaire server — Dafny model

A model of the server side of a ten-item perceived-stress questionnaire
(`app.py`). A client asks for the questions one by one, submits its
demographics (age, grade, strand), submits one answer per question, and asks
for the score. The server keeps the demographics and the answer list in the
client's session, sums the answers with four reverse-scored items, and maps the
sum to a Low, Moderate or High stress band with fixed advice. An optional shared
secret guards every route except the entry page and static assets.

Modules:

- `Wrappers` (`wrappers.dfy`): `Option`, standing for Python's `None` versus a value.
- `Questions` (`questions.dfy`): the question bank and `GET /api/get-question`.
  It follows Python subscription exactly. An index `n` with `-10 <= n < 0` wraps
  to `Bank[n + 10]` with number `n + 1`. An index below `-10` raises
  `IndexError`, modelled as `ServerError` (HTTP 500), not as the 404.
- `Scoring` (`scoring.dfy`): the reverse-scored index list, the score as the sum of
  per-entry contributions, and the three-band classification.
- `SessionState` (`session_state.dfy`): the session as a class whose fields the
  endpoints update in place. `answers` is `None` while the `'answers'` key is
  absent. `CalculateScore` is the source's accumulator loop, proved equal to
  `Scoring.Score`.
- `AccessGate` (`access_gate.dfy`): the before-request token check, with Python
  truthiness and the `header or query or cookie` chain, plus the entry page's
  cookie rule.

Scoring fails only when the `'answers'` key is absent from the session
(app.py:96-97). A present but empty list scores 0 and falls in the Low band.
Such a list exists, for example, right after `submit-info`.
`SessionState.InfoThenScore` states this outcome.

## Model

| member | source | states |
|---|---|---|
| Questions.PyIndex | app.py:68 | Python subscription: defined exactly for `-|s| <= i < |s|`, and a non-negative index gives `s[i]` |
| Questions.PyIndexWraps | app.py:68 | a negative index `i - |s|` names the same element as `i` |
| Questions.GetQuestion | app.py:64-69 | `0 <= n < 10` gives `Bank[n]` with number `n+1` and total 10; `-10 <= n < 0` wraps to `Bank[n+10]` with number `n+1`; the 404 iff `n >= 10`; the server error iff `n < -10`; every question text comes from the bank |
| Questions.QuestionReply.Status | app.py:68-69 | 200 for a question, 404 for "No more questions", 500 for the escaping `IndexError` |
| Questions.SequentialWalk | app.py:38-69 | asking for `num = 0 .. k-1` in turn yields the first `k` bank entries in order, numbered `1 .. k`; asking for `num = 10` gives 404 |
| Scoring.ScoreAppend | app.py:99-108 | the score of two concatenated answer lists is the sum of their scores |
| Scoring.ResubmissionCounted | app.py:99-108 | answering the same question twice adds its contribution twice (no de-duplication) |
| Scoring.ScoreRemove | app.py:99-108 | removing one entry from a list takes away exactly that entry's contribution |
| Scoring.ScoreOrderIndependent | app.py:99-108 | two answer lists holding the same entries (as multisets) have the same score, so submission order does not matter |
| Scoring.ScoreBounds | app.py:99-108 | when every answer is on the 0..4 scale, including the reverse items, the score lies in `0 .. 4*|answers|` |
| Scoring.Classify | app.py:110-119 | Low iff `score <= 13`, Moderate iff `14 <= score <= 26`, High iff `score >= 27` |
| Scoring.ClassifyMonotone | app.py:111-119 | a higher score never lands in a lower band |
| Scoring.LevelsDistinct | app.py:111-119 | the three bands have pairwise different level names and advice texts |
| SessionState.ScoreReply.Status | app.py:96-97 | 400 exactly for the "No answers found" reply, 200 for a scored reply |
| SessionState.Session.constructor | app.py:86-87 | a new session holds no demographics and no `answers` key |
| SessionState.Session.SubmitInfo | app.py:71-78 | the three fields become the values supplied and `answers` becomes an empty list, discarding earlier answers |
| SessionState.Session.SubmitAnswer | app.py:80-92 | `answers` becomes the old list (or the empty list if it was absent) with `(question_index, answer)` appended; the demographics are unchanged |
| SessionState.Session.CalculateScore | app.py:94-128 | the error iff `answers` is absent; otherwise the score is `Score` of the whole list, with the band's name and advice, and the stored demographics echoed back; the session is not modified |
| SessionState.Questionnaire | app.py:71-128 | submit-info, then answers `values[i]` to questions `0 .. n-1`, then calculate-score: the list holds exactly those answers and the score is theirs, whatever the session held before |
| SessionState.InfoThenScore | app.py:71-128 | a score request right after submit-info succeeds with score 0, "Low Stress" and the Low advice |
| AccessGate.FirstNonEmpty | app.py:33 | some token is found iff one of header, query or cookie is non-empty, and the found token is non-empty |
| AccessGate.OrChainIsFirstNonEmpty | app.py:33 | the Python `or` chain is truthy iff a non-empty candidate exists, and then it equals the first non-empty one in header, query, cookie order |
| AccessGate.Decision.Status | app.py:34-35 | a refusal is exactly the 401 response; an allowed request gets no early response |
| AccessGate.Gate | app.py:19-35 | an absent or empty configured token allows everything; `/`, `/static/...` and `/favicon.ico` are always allowed; otherwise allowed iff the first non-empty candidate equals the configured token |
| AccessGate.NoTokenRefused | app.py:29-35 | with a token configured, a protected path with no token, or only empty ones, is refused |
| AccessGate.AnyChannelAccepted | app.py:32-35 | the correct token on any single channel is accepted |
| AccessGate.HeaderShadowsOthers | app.py:33-35 | a non-empty wrong header is refused even when the query or cookie holds the correct token |
| AccessGate.IndexCookie | app.py:54-62 | the cookie is set iff the `access_token` query value is non-empty, and then it holds that value |
| AccessGate.CookieHandOff | app.py:54-62 | after the entry page is opened with the correct token, a request that carries only the cookie it set is allowed |

## Left out

- Flask plumbing is not modelled: `jsonify`, `render_template`, `make_response`, the `before_request` registration and the `__main__` environment parsing (app.py:130-138). The configured token is a parameter of `Gate`.
- Session storage is not modelled: the signed cookie that carries the session and the mapping from clients to sessions. One `Session` object stands for one client's session.
- The JSON body of submit-info and submit-answer (app.py:73, app.py:82) and the `int()` coercion in submit-answer (app.py:83-84) are not modelled. A body that is not a JSON object makes `data.get` raise (an HTTP 500); `SubmitInfo` and `SubmitAnswer` receive already-decoded values and always succeed. Answers and indices arrive as `int`; a missing key is the caller passing -1. Unparsable values raise in the source and are out of scope.
- The `num` query parameter of get-question arrives as an `int`. Its default of 0 for a missing or unparsable value belongs to the framework.
- Demographic values are JSON scalars (integers, non-integer numbers as `real`, strings, booleans) or `Null`. JSON arrays and objects sent as age, grade or strand are not represented.
- The `run_app.py` bootstrap and the `script.js` browser UI are not part of this model. `Questionnaire` states only the call order that the browser follows.
- Concurrent requests on one session are not modelled; the source does not guard against them.
- Header-name case-insensitivity and other HTTP details of reading the token belong to the framework and are not modelled.
