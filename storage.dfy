/**
 * The teacher's local question history (`Storage` in the teacher interface):
 * a list of question records kept under one browser-storage key, newest
 * first and capped at 100 entries, plus the stored theme and the history's
 * statistics. The storage slot is a field of `HistoryStore`; whether a write
 * succeeds, the fresh id and the clock readings are parameters.
 */
module Storage {
  import opened Wrappers
  import opened Js

  /** `CONFIG.STORAGE_KEY`, `CONFIG.THEME_KEY` and `CONFIG.MAX_HISTORY_ITEMS`. */
  const StorageKey: string := "newnerd_historico"
  const ThemeKey: string := "newnerd_theme"
  const MaxHistoryItems: nat := 100

  /** What the history key holds: nothing, text that does not parse, or a parsed list. */
  datatype Slot = Absent | Unparsable | Holds(items: seq<Record>)

  /** The record `salvarQuestao` stores: the question with its id and both timestamps set. */
  function WithMetadata(q: Record, id: string, timestamp: string, created: string): (r: Record)
    ensures Get(r, "id") == Str(id) && Get(r, "timestamp") == Str(timestamp)
    ensures Get(r, "data_criacao") == Str(created)
    ensures forall k :: k in q && k !in {"id", "timestamp", "data_criacao"} ==> k in r && r[k] == q[k]
  {
    q["id" := Str(id)]["timestamp" := Str(timestamp)]["data_criacao" := Str(created)]
  }

  /** Keep at most the first `MaxHistoryItems` entries (`historico.length = MAX`). */
  function Cap(h: seq<Record>): (r: seq<Record>)
    ensures |r| == Min(|h|, MaxHistoryItems) && r == h[..|r|]
  {
    if |h| > MaxHistoryItems then h[..MaxHistoryItems] else h
  }

  predicate HasId(q: Record, id: Value)
  {
    Get(q, "id") == id
  }

  /** `findIndex(q => q.id === id)`: the first matching position, or -1. */
  function FindIndex(h: seq<Record>, id: Value): (i: int)
    ensures -1 <= i < |h|
    ensures i == -1 <==> forall j :: 0 <= j < |h| ==> !HasId(h[j], id)
    ensures i >= 0 ==> HasId(h[i], id) && forall j :: 0 <= j < i ==> !HasId(h[j], id)
  {
    if h == [] then -1
    else if HasId(h[0], id) then 0
    else
      var i := FindIndex(h[1..], id);
      if i == -1 then -1 else i + 1
  }

  /** `find(q => q.id === id)`: the first record with that id. */
  function FindById(h: seq<Record>, id: Value): (r: Option<Record>)
    ensures r.None? <==> forall j :: 0 <= j < |h| ==> !HasId(h[j], id)
    ensures r.Some? ==>
      exists i :: 0 <= i < |h| && h[i] == r.value && HasId(r.value, id) && forall j :: 0 <= j < i ==> !HasId(h[j], id)
  {
    var i := FindIndex(h, id);
    if i == -1 then None else Some(h[i])
  }

  /** `filter(q => q.id !== id)`. */
  function WithoutId(h: seq<Record>, id: Value): (r: seq<Record>)
    ensures |r| <= |h|
    ensures forall j :: 0 <= j < |r| ==> !HasId(r[j], id)
    ensures forall q :: q in h && !HasId(q, id) ==> q in r
    ensures forall q :: q in r ==> q in h
  {
    if h == [] then []
    else if HasId(h[0], id) then WithoutId(h[1..], id)
    else [h[0]] + WithoutId(h[1..], id)
  }

  /** Removing an id a second time changes nothing. */
  lemma {:induction false} WithoutIdIdempotent(h: seq<Record>, id: Value)
    ensures WithoutId(WithoutId(h, id), id) == WithoutId(h, id)
  {
    if h != [] {
      WithoutIdIdempotent(h[1..], id);
      if !HasId(h[0], id) {
        assert WithoutId(h, id) == [h[0]] + WithoutId(h[1..], id);
        assert WithoutId(h, id)[1..] == WithoutId(h[1..], id);
      }
    }
  }

  /** The records without the id keep their relative order: removal is a subsequence. */
  lemma {:induction false} WithoutIdKeepsOrder(h: seq<Record>, id: Value)
    ensures WithoutId(h, id) == Kept(h, seq(|h|, j requires 0 <= j < |h| => !HasId(h[j], id)))
  {
    if h != [] {
      WithoutIdKeepsOrder(h[1..], id);
      var keep := seq(|h|, j requires 0 <= j < |h| => !HasId(h[j], id));
      assert keep[1..] == seq(|h[1..]|, j requires 0 <= j < |h[1..]| => !HasId(h[1..][j], id));
    }
  }

  /** The entries of `h` whose flag is set, in order. */
  function Kept(h: seq<Record>, keep: seq<bool>): seq<Record>
    requires |keep| == |h|
  {
    if h == [] then [] else (if keep[0] then [h[0]] else []) + Kept(h[1..], keep[1..])
  }

  /** The record `atualizarQuestao` writes back. */
  function Updated(old_: Record, changes: Record, now: string): (r: Record)
    ensures Get(r, "ultima_atualizacao") == Str(now)
    ensures forall k :: k in changes && k != "ultima_atualizacao" ==> k in r && r[k] == changes[k]
    ensures forall k :: k in old_ && k !in changes && k != "ultima_atualizacao" ==> k in r && r[k] == old_[k]
  {
    Spread(old_, changes)["ultima_atualizacao" := Str(now)]
  }

  // ===== Statistics =====

  /** `q.tipo_questao || "desconhecido"`, as a property name. */
  function TipoKey(q: Record): string
  {
    StrOr(q, "tipo_questao", "desconhecido")
  }

  /** `q.disciplina || "Geral"`, as a property name. */
  function DisciplinaKey(q: Record): string
  {
    StrOr(q, "disciplina", "Geral")
  }

  /** `q.tokens_usados || 0` for numeric token counts. */
  function Tokens(q: Record): int
  {
    match Get(q, "tokens_usados")
    case Num(n) => n
    case _ => 0
  }

  /** The two properties the statistics group by. */
  datatype Grouping = ByTipo | ByDisciplina

  function KeyOf(g: Grouping, q: Record): string
  {
    match g
    case ByTipo => TipoKey(q)
    case ByDisciplina => DisciplinaKey(q)
  }

  /** The grouping key of every record, in order. */
  function Keys(h: seq<Record>, g: Grouping): (ks: seq<string>)
    ensures |ks| == |h| && forall i :: 0 <= i < |h| ==> ks[i] == KeyOf(g, h[i])
  {
    if h == [] then [] else Keys(h[..|h| - 1], g) + [KeyOf(g, h[|h| - 1])]
  }

  /** The counts `stats[key] = (stats[key] || 0) + 1` builds over a list of keys. */
  function Tally(ks: seq<string>): map<string, nat>
  {
    if ks == [] then map[] else Bump(Tally(ks[..|ks| - 1]), ks[|ks| - 1])
  }

  /** `counts[k] = (counts[k] || 0) + 1`. */
  function Bump(m: map<string, nat>, k: string): (r: map<string, nat>)
    ensures k in r && r[k] == (if k in m then m[k] else 0) + 1
    ensures forall j :: j != k ==> (j in r <==> j in m) && (j in m ==> r[j] == m[j])
  {
    m[k := (if k in m then m[k] else 0) + 1]
  }

  /**
   * The tally is the multiset of the keys: a key is present iff it occurs,
   * with its number of occurrences; so the counts add up to the number of keys.
   */
  lemma {:induction false} TallyIsMultiset(ks: seq<string>)
    ensures forall k :: k in Tally(ks) <==> k in ks
    ensures forall k :: k in Tally(ks) ==> Tally(ks)[k] == multiset(ks)[k]
  {
    if ks != [] {
      var init := ks[..|ks| - 1];
      TallyIsMultiset(init);
      assert ks == init + [ks[|ks| - 1]];
      assert multiset(ks) == multiset(init) + multiset{ks[|ks| - 1]};
    }
  }

  function SumTokens(h: seq<Record>): int
  {
    if h == [] then 0 else SumTokens(h[..|h| - 1]) + Tokens(h[|h| - 1])
  }

  /** What `getEstatisticas` reports, leaving out the cost fields. */
  datatype Stats = Stats(total: nat, porTipo: map<string, nat>, porDisciplina: map<string, nat>, tokensTotal: int)

  /**
   * Each grouping's count map holds exactly the keys that occur, each with
   * the number of records that carry it.
   */
  function Statistics(h: seq<Record>): (s: Stats)
    ensures s.total == |h|
    ensures forall k :: k in s.porTipo <==> k in Keys(h, ByTipo)
    ensures forall k :: k in s.porTipo ==> s.porTipo[k] == multiset(Keys(h, ByTipo))[k]
    ensures forall k :: k in s.porDisciplina <==> k in Keys(h, ByDisciplina)
    ensures forall k :: k in s.porDisciplina ==> s.porDisciplina[k] == multiset(Keys(h, ByDisciplina))[k]
  {
    TallyIsMultiset(Keys(h, ByTipo));
    TallyIsMultiset(Keys(h, ByDisciplina));
    Stats(|h|, Tally(Keys(h, ByTipo)), Tally(Keys(h, ByDisciplina)), SumTokens(h))
  }

  /** One step of `forEach`: the statistics with one more record counted. */
  function Count(s: Stats, q: Record): Stats
  {
    Stats(s.total + 1, Bump(s.porTipo, TipoKey(q)), Bump(s.porDisciplina, DisciplinaKey(q)), s.tokensTotal + Tokens(q))
  }

  /** Counting the records one at a time from the front yields the statistics of the prefix read so far. */
  lemma {:induction false} StatisticsStep(h: seq<Record>, i: nat)
    requires i < |h|
    ensures Statistics(h[..i + 1]) == Count(Statistics(h[..i]), h[i])
  {
    assert h[..i + 1][..i] == h[..i];
    assert Keys(h[..i + 1], ByTipo)[..i] == Keys(h[..i], ByTipo);
    assert Keys(h[..i + 1], ByDisciplina)[..i] == Keys(h[..i], ByDisciplina);
  }

  /**
   * Every record is counted once under each grouping: the count map is the
   * multiset of the records' keys, so the counts add up to `total`.
   */
  lemma {:induction false} StatisticsPartition(h: seq<Record>, g: Grouping)
    ensures var counts := if g == ByTipo then Statistics(h).porTipo else Statistics(h).porDisciplina;
      |multiset(Keys(h, g))| == Statistics(h).total &&
      (forall k :: k in counts <==> exists i :: 0 <= i < |h| && KeyOf(g, h[i]) == k) &&
      (forall k :: k in counts ==> counts[k] == multiset(Keys(h, g))[k])
  {
    var s := Statistics(h);
    var counts := if g == ByTipo then s.porTipo else s.porDisciplina;
    assert forall k :: k in counts <==> k in Keys(h, g);
    forall k
      ensures k in counts <==> exists i :: 0 <= i < |h| && KeyOf(g, h[i]) == k
    {
      KeysMembership(h, g, k);
    }
  }

  /** A key occurs among the keys exactly when some record carries it. */
  lemma KeysMembership(h: seq<Record>, g: Grouping, k: string)
    ensures k in Keys(h, g) <==> exists i :: 0 <= i < |h| && KeyOf(g, h[i]) == k
  {
    var ks := Keys(h, g);
    if k in ks {
      var i :| 0 <= i < |ks| && ks[i] == k;
    }
  }

  /** The browser storage the history and the theme live in. */
  class HistoryStore {
    var slot: Slot
    var theme: Option<string>

    constructor (slot0: Slot, theme0: Option<string>)
      ensures slot == slot0 && theme == theme0
    {
      slot, theme := slot0, theme0;
    }

    /** `getHistorico`: the parsed list, or `[]` when the key is absent or does not parse. */
    function History(): seq<Record>
      reads this
    {
      if slot.Holds? then slot.items else []
    }

    /**
     * `salvarQuestao`: the record with its metadata goes to the front and the
     * list is cut to `MaxHistoryItems`, dropping the oldest; a failing write
     * returns nothing and leaves the storage as it was.
     */
    method SalvarQuestao(q: Record, id: string, timestamp: string, created: string, writeOk: bool)
      returns (r: Option<Record>)
      modifies this
      ensures theme == old(theme)
      ensures !writeOk ==> r == None && slot == old(slot)
      ensures writeOk ==>
        var rec := WithMetadata(q, id, timestamp, created);
        r == Some(rec) && slot.Holds? &&
        |History()| == Min(|old(History())| + 1, MaxHistoryItems) &&
        History()[0] == rec && History()[1..] == old(History())[..|History()| - 1]
    {
      var historico := History();
      var rec := WithMetadata(q, id, timestamp, created);
      historico := [rec] + historico;
      if |historico| > MaxHistoryItems {
        historico := historico[..MaxHistoryItems];
      }
      if !writeOk {
        return None;
      }
      slot := Holds(historico);
      return Some(rec);
    }

    /** `getQuestaoById`. */
    function QuestaoById(id: Value): (r: Option<Record>)
      reads this
      ensures r == FindById(History(), id)
    {
      FindById(History(), id)
    }

    /** `removerQuestao`: keeps every other record in order; `false` when the write fails. */
    method RemoverQuestao(id: Value, writeOk: bool) returns (ok: bool)
      modifies this
      ensures ok == writeOk && theme == old(theme)
      ensures writeOk ==> slot == Holds(WithoutId(old(History()), id))
      ensures !writeOk ==> slot == old(slot)
    {
      var historico := History();
      historico := WithoutId(historico, id);
      if !writeOk {
        return false;
      }
      slot := Holds(historico);
      return true;
    }

    /** `limparHistorico`: removes the key, after which the history reads as empty. */
    method LimparHistorico(removeOk: bool) returns (ok: bool)
      modifies this
      ensures ok == removeOk && theme == old(theme)
      ensures removeOk ==> slot == Absent && History() == []
      ensures !removeOk ==> slot == old(slot)
    {
      if !removeOk {
        return false;
      }
      slot := Absent;
      return true;
    }

    /**
     * `atualizarQuestao`: overlays the changes and a fresh `ultima_atualizacao`
     * on the first record with the id, and on no other; with no match, or when
     * the write fails, nothing is stored and the result is `null`.
     */
    method AtualizarQuestao(id: Value, changes: Record, now: string, writeOk: bool)
      returns (r: Option<Record>)
      modifies this
      ensures theme == old(theme)
      ensures var i := FindIndex(old(History()), id);
        if i == -1 || !writeOk then r == None && slot == old(slot)
        else
          var rec := Updated(old(History())[i], changes, now);
          r == Some(rec) && slot == Holds(old(History())[i := rec])
    {
      var historico := History();
      var index := FindIndex(historico, id);
      if index != -1 {
        var rec := Updated(historico[index], changes, now);
        historico := historico[index := rec];
        if !writeOk {
          return None;
        }
        slot := Holds(historico);
        return Some(rec);
      }
      return None;
    }

    /** `getTema`: the stored theme, or "light" when none (or an empty one) is stored. */
    function Tema(): (t: string)
      reads this
      ensures theme.Some? && theme.value != "" ==> t == theme.value
      ensures theme.None? || theme.value == "" ==> t == "light"
    {
      if theme.Some? && theme.value != "" then theme.value else "light"
    }

    /** `setTema`. */
    method SetTema(t: string)
      modifies this
      ensures theme == Some(t) && slot == old(slot)
    {
      theme := Some(t);
    }

    /** `getEstatisticas`: one pass over the history counting by type and discipline and adding tokens. */
    method GetEstatisticas() returns (s: Stats)
      ensures s == Statistics(History())
    {
      var historico := History();
      var stats := Stats(0, map[], map[], 0);
      var i := 0;
      while i < |historico|
        invariant 0 <= i <= |historico|
        invariant stats == Statistics(historico[..i])
      {
        StatisticsStep(historico, i);
        var q := historico[i];
        stats := stats.(total := stats.total + 1);
        stats := stats.(porTipo := Bump(stats.porTipo, TipoKey(q)));
        stats := stats.(porDisciplina := Bump(stats.porDisciplina, DisciplinaKey(q)));
        stats := stats.(tokensTotal := stats.tokensTotal + Tokens(q));
        i := i + 1;
      }
      assert historico[..i] == historico;
      s := stats;
    }
  }
}
