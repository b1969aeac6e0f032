/**
 * The constants the bot reads from its configuration module (symbol,
 * default leverage and margin, stop-loss and take-profit percentages).
 * Their values are not fixed by the model: every operation takes them as
 * a parameter.
 */
module BotConfig {

  datatype Config = Config(
    symbol: string,
    defaultLeverage: int,
    defaultQuantityUsdt: real,
    stopLossPct: real,
    takeProfitPct: real)
}
