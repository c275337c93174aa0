/** The fixed Brazil time zone of `utils/date_time.py`. A datetime is its wall-clock reading in
    seconds and, when it is aware, its UTC offset in seconds. */
module DateTime {
  import opened Common

  /** UTC-3, with no daylight saving. */
  const OffsetBrasil: int := -3 * 3600

  /** A datetime: `local` seconds on the wall clock, `offset` None for a naive one. */
  datatype Dt = Dt(local: int, offset: Option<int>)

  /** The instant an aware datetime stands for, in UTC seconds. */
  function Instante(d: Dt): int
    requires d.offset.Some?
  {
    d.local - d.offset.value
  }

  /** `dt.astimezone(tz)` for an aware `dt`: the same instant read at offset `tz`. */
  function NoFuso(d: Dt, tz: int): (r: Dt)
    requires d.offset.Some?
    ensures r.offset == Some(tz) && Instante(r) == Instante(d)
  {
    Dt(d.local - d.offset.value + tz, Some(tz))
  }

  /** `agora_brasil`: the clock's UTC reading `utc`, seen in Brazil. */
  function AgoraBrasil(utc: int): (r: Dt)
    ensures r.offset == Some(OffsetBrasil) && Instante(r) == utc
  {
    Dt(utc + OffsetBrasil, Some(OffsetBrasil))
  }

  /** `utc_para_brasil`: None stays None, a naive datetime is taken as UTC, and the result is the
      same instant at UTC-3. */
  function UtcParaBrasil(d: Option<Dt>): (r: Option<Dt>)
    ensures d.None? <==> r.None?
    ensures d.Some? ==> r.value.offset == Some(OffsetBrasil)
    ensures d.Some? && d.value.offset.None? ==> r.value.local == d.value.local - 3 * 3600
    ensures d.Some? && d.value.offset.Some? ==> Instante(r.value) == Instante(d.value)
  {
    match d
    case None => None
    case Some(dt) =>
      var aware := if dt.offset.None? then dt.(offset := Some(0)) else dt;
      Some(NoFuso(aware, OffsetBrasil))
  }

  /** `brasil_para_utc`: None stays None, a naive datetime is taken as UTC-3, and the result is the
      same instant in UTC. */
  function BrasilParaUtc(d: Option<Dt>): (r: Option<Dt>)
    ensures d.None? <==> r.None?
    ensures d.Some? ==> r.value.offset == Some(0)
    ensures d.Some? && d.value.offset.None? ==> r.value.local == d.value.local + 3 * 3600
    ensures d.Some? && d.value.offset.Some? ==> Instante(r.value) == Instante(d.value)
  {
    match d
    case None => None
    case Some(dt) =>
      var aware := if dt.offset.None? then dt.(offset := Some(OffsetBrasil)) else dt;
      Some(NoFuso(aware, 0))
  }

  /** Going to Brazil time and back gives the same UTC clock reading, for a naive UTC datetime as
      for an aware one. */
  lemma IdaEVolta(d: Dt)
    ensures var b := BrasilParaUtc(UtcParaBrasil(Some(d)));
      && b.Some? && b.value.offset == Some(0)
      && b.value.local == (if d.offset.None? then d.local else Instante(d))
  {
  }

  /** And from Brazil time to UTC and back, the same Brazil clock reading. */
  lemma VoltaEIda(d: Dt)
    ensures var b := UtcParaBrasil(BrasilParaUtc(Some(d)));
      && b.Some? && b.value.offset == Some(OffsetBrasil)
      && b.value.local == (if d.offset.None? then d.local else Instante(d) + OffsetBrasil)
  {
  }

  /** `formatar_brasil`: None for None; otherwise the datetime, moved to Brazil time unless it is
      already there, formatted by `strftime`. */
  function FormatarBrasil(d: Option<Dt>, formato: string, strftime: (Dt, string) -> string): (r: Option<string>)
    ensures d.None? <==> r.None?
    ensures d.Some? && d.value.offset == Some(OffsetBrasil) ==> r == Some(strftime(d.value, formato))
    ensures d.Some? && d.value.offset != Some(OffsetBrasil) ==> r == Some(strftime(UtcParaBrasil(d).value, formato))
  {
    match d
    case None => None
    case Some(dt) =>
      var b := if dt.offset.None? || dt.offset.value != OffsetBrasil then UtcParaBrasil(d).value else dt;
      Some(strftime(b, formato))
  }

  const FormatoPadrao: string := "%d/%m/%Y %H:%M:%S"
}
