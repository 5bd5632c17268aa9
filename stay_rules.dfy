/**
 * Date arithmetic on stays. Instants are integer milliseconds since the
 * epoch; the reservation views turn a millisecond difference into whole days
 * with `Math.ceil(diff / (1000 * 60 * 60 * 24))`.
 */
module StayRules {

  const MsPerDay: int := 1000 * 60 * 60 * 24

  /** `Math.ceil(diff / MsPerDay)`: the least whole number of days covering `diff`. */
  function CeilDays(diff: int): (n: int)
    ensures (n - 1) * MsPerDay < diff <= n * MsPerDay
  {
    if diff % MsPerDay == 0 then diff / MsPerDay else diff / MsPerDay + 1
  }

  /** `calcularNoches(entrada, salida)` */
  function Nights(entrada: int, salida: int): (n: int)
    ensures (n - 1) * MsPerDay < salida - entrada <= n * MsPerDay
    ensures n > 0 <==> salida > entrada
    ensures n >= 0 <==> salida > entrada - MsPerDay
  {
    CeilDays(salida - entrada)
  }

  /** A stay of exactly `k` whole days counts `k` nights. */
  lemma WholeDays(entrada: int, k: int)
    ensures Nights(entrada, entrada + k * MsPerDay) == k
  {
  }

  /** A later check-out never gives fewer nights. */
  lemma NightsMonotone(entrada: int, salida1: int, salida2: int)
    requires salida1 <= salida2
    ensures Nights(entrada, salida1) <= Nights(entrada, salida2)
  {
  }

  /**
   * `puedeCancelar`: only a confirmed reservation, and only while the whole
   * number of days until check-in, rounded up, is positive.
   */
  function PuedeCancelar(estado: string, fechaEntrada: int, now: int): (b: bool)
    ensures b <==> estado == "confirmada" && fechaEntrada > now
  {
    if estado != "confirmada" then false
    else Nights(now, fechaEntrada) > 0
  }
}
